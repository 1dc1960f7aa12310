/**
 Discovery with a cache and a rate limit (section 6.2 of
 draft-hardt-httpbis-signature-key-05).

 Next to the three maps of the cache a log records every request that went out since the
 cache was last cleared. Time is in nanoseconds.
 */
module MetadataCache {
  import opened Prelude
  import opened Tokens

  const METADATA_TTL := 600_000_000_000
  const MIN_INTERVAL := 60_000_000_000

  type Keys = map<string, Jwk>

  datatype Entry = Entry(jwksUri: string, fetchedAt: nat)

  datatype Cache = Cache(metadata: map<string, Entry>, jwks: map<string, Keys>, lastFetch: map<string, nat>)

  /** A request that went out, when, and what it brought; a document arrives at `done`. */
  datatype Fetch = MetadataFetch(key: string, at: nat, uri: Option<string>, done: nat) | JwksFetch(key: string, at: nat, keys: Option<Keys>)

  datatype FetchError = RequestFailed | MissingJwksUri | RateLimited

  /** The clock readings of one call, in order. */
  datatype Times = Times(check: nat, gate: nat, record: nat, done: nat)

  predicate Ordered(clock: nat, t: Times) {
    clock <= t.check <= t.gate <= t.record <= t.done
  }

  // ----- one call -----

  predicate CanFetch(c: Cache, key: string, now: nat) {
    key in c.lastFetch ==> now >= c.lastFetch[key] + MIN_INTERVAL
  }

  predicate ServesMetadata(c: Cache, url: string, t: Times) {
    && url in c.metadata
    && (t.check < c.metadata[url].fetchedAt + METADATA_TTL || !CanFetch(c, url, t.gate))
  }

  /** `response` is the document's `jwks_uri`, or None when the request failed. */
  function MetadataFetched(c: Cache, url: string, t: Times, response: Option<string>): (r: (Cache, Result<string, FetchError>, seq<Fetch>)) {
    if ServesMetadata(c, url, t) then (c, Ok(c.metadata[url].jwksUri), [])
    else
      var c' := c.(lastFetch := c.lastFetch[url := t.record]);
      if response.None? then (c', Err(RequestFailed), [MetadataFetch(url, t.record, None, t.done)])
      else if response.value == "" then (c', Err(MissingJwksUri), [MetadataFetch(url, t.record, None, t.done)])
      else (c'.(metadata := c.metadata[url := Entry(response.value, t.done)]), Ok(response.value), [MetadataFetch(url, t.record, response, t.done)])
  }

  function JwksFetched(c: Cache, uri: string, t: Times, response: Option<Keys>): (r: (Cache, Result<Keys, FetchError>, seq<Fetch>)) {
    if uri in c.jwks then (c, Ok(c.jwks[uri]), [])
    else if !CanFetch(c, uri, t.gate) then (c, Err(RateLimited), [])
    else
      var c' := c.(lastFetch := c.lastFetch[uri := t.record]);
      if response.None? then (c', Err(RequestFailed), [JwksFetch(uri, t.record, None)])
      else (c'.(jwks := c.jwks[uri := response.value]), Ok(response.value), [JwksFetch(uri, t.record, response)])
  }

  // ----- what the log says -----

  /** The last time anything was requested from `key`. */
  function LastTime(log: seq<Fetch>, key: string): (r: Option<nat>) {
    if log == [] then None
    else if log[|log| - 1].key == key then Some(log[|log| - 1].at)
    else LastTime(log[..|log| - 1], key)
  }

  /** The last metadata document that arrived from `url`, and when. */
  function LastDocument(log: seq<Fetch>, url: string): (r: Option<Entry>) {
    if log == [] then None
    else
      var last := log[|log| - 1];
      if last.MetadataFetch? && last.key == url && last.uri.Some? then Some(Entry(last.uri.value, last.done))
      else LastDocument(log[..|log| - 1], url)
  }

  /** The last key set that arrived from `uri`. */
  function LastKeys(log: seq<Fetch>, uri: string): (r: Option<Keys>) {
    if log == [] then None
    else
      var last := log[|log| - 1];
      if last.JwksFetch? && last.key == uri && last.keys.Some? then last.keys else LastKeys(log[..|log| - 1], uri)
  }

  /** The cache says what the log says, and nothing in the log is later than `clock`. */
  ghost predicate Faithful(c: Cache, log: seq<Fetch>, clock: nat) {
    && (forall key :: LastTime(log, key) == if key in c.lastFetch then Some(c.lastFetch[key]) else None)
    && (forall url :: LastDocument(log, url) == if url in c.metadata then Some(c.metadata[url]) else None)
    && (forall uri :: LastKeys(log, uri) == if uri in c.jwks then Some(c.jwks[uri]) else None)
    && (forall i :: 0 <= i < |log| ==> log[i].at <= clock)
    && (forall i, j :: 0 <= i < j < |log| ==> log[i].at <= log[j].at)
  }

  predicate Arrived(log: seq<Fetch>, url: string, n: nat)
    requires n <= |log|
  {
    exists i :: 0 <= i < n && log[i].MetadataFetch? && log[i].key == url && log[i].uri.Some?
  }

  /** The promise to the servers behind `log[i]` and a later `log[j]` to the same address. */
  predicate Spaced(log: seq<Fetch>, i: nat, j: nat)
    requires i < j < |log|
  {
    log[i].key == log[j].key ==>
      && (log[j].JwksFetch? ==> log[j].at >= log[i].at + 60_000_000_000)
      && (log[j].JwksFetch? && log[i].JwksFetch? ==> log[i].keys.None?)
      && (log[j].MetadataFetch? && Arrived(log, log[j].key, j) ==> log[j].at >= log[i].at + 60_000_000_000)
  }

  ghost predicate Polite(log: seq<Fetch>) {
    forall i, j :: 0 <= i < j < |log| ==> Spaced(log, i, j)
  }

  lemma {:induction false} LastTimeIsLatest(log: seq<Fetch>, i: nat)
    requires i < |log| && forall a, b :: 0 <= a < b < |log| ==> log[a].at <= log[b].at
    ensures LastTime(log, log[i].key).Some? && log[i].at <= LastTime(log, log[i].key).value
  {
    var n := |log| - 1;
    if log[n].key != log[i].key {
      LastTimeIsLatest(log[..n], i);
    }
  }

  lemma {:induction false} KeysArrived(log: seq<Fetch>, i: nat)
    requires i < |log| && log[i].JwksFetch? && log[i].keys.Some?
    ensures LastKeys(log, log[i].key).Some?
  {
    if i < |log| - 1 { KeysArrived(log[..|log| - 1], i); }
  }

  lemma {:induction false} DocumentArrived(log: seq<Fetch>, url: string)
    ensures Arrived(log, url, |log|) ==> LastDocument(log, url).Some?
  {
    if log != [] {
      var n := |log| - 1;
      DocumentArrived(log[..n], url);
      if Arrived(log, url, |log|) {
        var i :| 0 <= i < |log| && log[i].MetadataFetch? && log[i].key == url && log[i].uri.Some?;
        if i < n {
          assert log[..n][i] == log[i];
        }
      }
    }
  }

  /** One more entry leaves what earlier entries promised. */
  lemma PoliteMore(log: seq<Fetch>, f: Fetch)
    requires Polite(log)
    requires forall i :: 0 <= i < |log| ==> Spaced(log + [f], i, |log|)
    ensures Polite(log + [f])
  {
    var log' := log + [f];
    forall i, j | 0 <= i < j < |log'| ensures Spaced(log', i, j) {
      if j < |log| {
        assert Spaced(log, i, j);
        assert log'[i] == log[i] && log'[j] == log[j];
        if Arrived(log', log[j].key, j) {
          var k :| 0 <= k < j && log'[k].MetadataFetch? && log'[k].key == log[j].key && log'[k].uri.Some?;
          assert log[k] == log'[k];
        }
      }
    }
  }

  /** A request that passes the gate comes at least 60 s after any earlier one to the same address. */
  lemma GateSpaces(c: Cache, log: seq<Fetch>, clock: nat, f: Fetch, gate: nat)
    requires Faithful(c, log, clock) && CanFetch(c, f.key, gate) && gate <= f.at
    ensures forall i :: 0 <= i < |log| && log[i].key == f.key ==> f.at >= log[i].at + MIN_INTERVAL
  {
    forall i | 0 <= i < |log| && log[i].key == f.key ensures f.at >= log[i].at + MIN_INTERVAL {
      LastTimeIsLatest(log, i);
    }
  }

  lemma MetadataStepPolite(c: Cache, log: seq<Fetch>, clock: nat, url: string, t: Times, response: Option<string>)
    requires Faithful(c, log, clock) && Polite(log) && Ordered(clock, t)
    ensures Polite(log + MetadataFetched(c, url, t, response).2)
  {
    var fetches := MetadataFetched(c, url, t, response).2;
    if fetches == [] {
      assert log + fetches == log;
    } else {
      var f := fetches[0];
      var log' := log + [f];
      if CanFetch(c, url, t.gate) { GateSpaces(c, log, clock, f, t.gate); }
      DocumentArrived(log, url);
      assert Arrived(log', url, |log|) ==> Arrived(log, url, |log|) by {
        if Arrived(log', url, |log|) {
          var k :| 0 <= k < |log| && log'[k].MetadataFetch? && log'[k].key == url && log'[k].uri.Some?;
          assert log[k] == log'[k];
        }
      }
      PoliteMore(log, f);
    }
  }

  lemma JwksStepPolite(c: Cache, log: seq<Fetch>, clock: nat, uri: string, t: Times, response: Option<Keys>)
    requires Faithful(c, log, clock) && Polite(log) && Ordered(clock, t)
    ensures Polite(log + JwksFetched(c, uri, t, response).2)
  {
    var fetches := JwksFetched(c, uri, t, response).2;
    if fetches == [] {
      assert log + fetches == log;
    } else {
      var f := fetches[0];
      GateSpaces(c, log, clock, f, t.gate);
      forall i | 0 <= i < |log| ensures Spaced(log + [f], i, |log|) {
        assert (log + [f])[i] == log[i];
        if log[i].key == uri && log[i].JwksFetch? && log[i].keys.Some? {
          KeysArrived(log, i);
          assert false;
        }
      }
      PoliteMore(log, f);
    }
  }

  lemma FaithfulMore(c: Cache, c': Cache, log: seq<Fetch>, clock: nat, f: Fetch, clock': nat)
    requires Faithful(c, log, clock) && clock <= f.at <= clock'
    requires c'.lastFetch == c.lastFetch[f.key := f.at]
    requires if f.MetadataFetch? && f.uri.Some? then c'.metadata == c.metadata[f.key := Entry(f.uri.value, f.done)]
             else c'.metadata == c.metadata
    requires if f.JwksFetch? && f.keys.Some? then c'.jwks == c.jwks[f.key := f.keys.value] else c'.jwks == c.jwks
    ensures Faithful(c', log + [f], clock')
  {
    var log' := log + [f];
    assert log'[..|log|] == log;
    assert forall i :: 0 <= i < |log| ==> log'[i] == log[i];
  }

  lemma MetadataStepFaithful(c: Cache, log: seq<Fetch>, clock: nat, url: string, t: Times, response: Option<string>)
    requires Faithful(c, log, clock) && Ordered(clock, t)
    ensures var (c', r, fetches) := MetadataFetched(c, url, t, response);
            && Faithful(c', log + fetches, t.done)
            && (r.Ok? ==> LastDocument(log + fetches, url).Some? && LastDocument(log + fetches, url).value.jwksUri == r.value)
  {
    var (c', r, fetches) := MetadataFetched(c, url, t, response);
    if fetches == [] {
      assert log + fetches == log;
    } else {
      FaithfulMore(c, c', log, clock, fetches[0], t.done);
    }
  }

  lemma JwksStepFaithful(c: Cache, log: seq<Fetch>, clock: nat, uri: string, t: Times, response: Option<Keys>)
    requires Faithful(c, log, clock) && Ordered(clock, t)
    ensures var (c', r, fetches) := JwksFetched(c, uri, t, response);
            && Faithful(c', log + fetches, t.done)
            && (r.Ok? ==> LastKeys(log + fetches, uri) == Some(r.value))
  {
    var (c', r, fetches) := JwksFetched(c, uri, t, response);
    if fetches == [] {
      assert log + fetches == log;
    } else {
      FaithfulMore(c, c', log, clock, fetches[0], t.done);
    }
  }

  class CachedMetadataFetcher {
    var metadata: map<string, Entry>
    var jwks: map<string, Keys>
    var lastFetch: map<string, nat>
    ghost var log: seq<Fetch>
    ghost var clock: nat

    function State(): (r: Cache)
      reads this
    {
      Cache(metadata, jwks, lastFetch)
    }

    /** Every answer is faithful to the log, and the log keeps the rate limit. */
    ghost predicate Valid()
      reads this
    {
      Faithful(State(), log, clock) && Polite(log)
    }

    constructor ()
      ensures Valid() && State() == Cache(map[], map[], map[]) && log == []
    {
      metadata, jwks, lastFetch, log, clock := map[], map[], map[], [], 0;
    }

    method ClearCache()
      requires Valid()
      modifies this
      ensures Valid() && State() == Cache(map[], map[], map[]) && log == [] && clock == old(clock)
    {
      metadata, jwks, lastFetch, log := map[], map[], map[], [];
    }

    method FetchMetadata(url: string, t: Times, response: Option<string>) returns (r: Result<string, FetchError>)
      requires Valid() && Ordered(clock, t)
      modifies this
      ensures Valid() && clock == t.done
      ensures (State(), r, log) == var (c, r, fetches) := MetadataFetched(old(State()), url, t, response); (c, r, old(log) + fetches)
      ensures r.Ok? ==> LastDocument(log, url).Some? && LastDocument(log, url).value.jwksUri == r.value
    {
      MetadataStepFaithful(State(), log, clock, url, t, response);
      MetadataStepPolite(State(), log, clock, url, t, response);
      log := log + MetadataFetched(State(), url, t, response).2;
      clock := t.done;
      r := CheckedMetadata(url, t, response);
    }

    method CheckedMetadata(url: string, t: Times, response: Option<string>) returns (r: Result<string, FetchError>)
      modifies this`metadata, this`lastFetch
      ensures var (c, result, _) := MetadataFetched(old(State()), url, t, response); State() == c && r == result
    {
      if url in metadata && t.check < metadata[url].fetchedAt + METADATA_TTL {
        return Ok(metadata[url].jwksUri);
      }
      if !CanFetch(State(), url, t.gate) && url in metadata {
        return Ok(metadata[url].jwksUri);
      }
      lastFetch := lastFetch[url := t.record];
      if response.None? {
        return Err(RequestFailed);
      }
      if response.value == "" {
        return Err(MissingJwksUri);
      }
      metadata := metadata[url := Entry(response.value, t.done)];
      r := Ok(response.value);
    }

    method FetchJwks(uri: string, t: Times, response: Option<Keys>) returns (r: Result<Keys, FetchError>)
      requires Valid() && Ordered(clock, t)
      modifies this
      ensures Valid() && clock == t.done
      ensures (State(), r, log) == var (c, r, fetches) := JwksFetched(old(State()), uri, t, response); (c, r, old(log) + fetches)
      ensures r.Ok? ==> LastKeys(log, uri) == Some(r.value)
    {
      JwksStepFaithful(State(), log, clock, uri, t, response);
      JwksStepPolite(State(), log, clock, uri, t, response);
      log := log + JwksFetched(State(), uri, t, response).2;
      clock := t.done;
      r := CheckedJwks(uri, t, response);
    }

    method CheckedJwks(uri: string, t: Times, response: Option<Keys>) returns (r: Result<Keys, FetchError>)
      modifies this`jwks, this`lastFetch
      ensures var (c, result, _) := JwksFetched(old(State()), uri, t, response); State() == c && r == result
    {
      if uri in jwks {
        return Ok(jwks[uri]);
      }
      if !CanFetch(State(), uri, t.gate) {
        return Err(RateLimited);
      }
      lastFetch := lastFetch[uri := t.record];
      if response.None? {
        return Err(RequestFailed);
      }
      jwks := jwks[uri := response.value];
      r := Ok(response.value);
    }
  }

  // ----- exactly when a request goes out -----

  /** At least 60 s have passed at `now` since anything was requested from `key`. */
  predicate Rested(log: seq<Fetch>, key: string, now: nat) {
    LastTime(log, key).Some? ==> now >= LastTime(log, key).value + 60_000_000_000
  }

  /** Metadata is requested exactly when no document has arrived yet, or the last one is too old and the last request long enough ago. */
  lemma MetadataRequestedExactly(c: Cache, log: seq<Fetch>, clock: nat, url: string, t: Times, response: Option<string>)
    requires Faithful(c, log, clock)
    ensures MetadataFetched(c, url, t, response).2 != [] <==>
              match LastDocument(log, url)
              case None => true
              case Some(document) => t.check >= document.fetchedAt + 600_000_000_000 && Rested(log, url, t.gate)
  {
    assert LastDocument(log, url) == if url in c.metadata then Some(c.metadata[url]) else None;
    assert LastTime(log, url) == if url in c.lastFetch then Some(c.lastFetch[url]) else None;
  }

  /** A key set is requested exactly when none has arrived yet and the last request is long enough ago. */
  lemma JwksRequestedExactly(c: Cache, log: seq<Fetch>, clock: nat, uri: string, t: Times, response: Option<Keys>)
    requires Faithful(c, log, clock)
    ensures JwksFetched(c, uri, t, response).2 != [] <==> LastKeys(log, uri).None? && Rested(log, uri, t.gate)
  {
    assert LastKeys(log, uri) == if uri in c.jwks then Some(c.jwks[uri]) else None;
    assert LastTime(log, uri) == if uri in c.lastFetch then Some(c.lastFetch[uri]) else None;
  }

  /** Calls for one document, none of which brings it. */
  function FailedCalls(c: Cache, url: string, times: seq<Times>): (r: (Cache, seq<Fetch>)) {
    if times == [] then (c, [])
    else
      var n := |times| - 1;
      var (before, fetches) := FailedCalls(c, url, times[..n]);
      var (after, _, more) := MetadataFetched(before, url, times[n], None);
      (after, fetches + more)
  }

  /** Until the first document arrives nothing limits the requests: every call makes one, however close together they are. */
  lemma {:induction false} FirstMetadataIsNotLimited(c: Cache, log: seq<Fetch>, clock: nat, url: string, times: seq<Times>)
    requires Faithful(c, log, clock) && LastDocument(log, url).None?
    ensures var (after, fetches) := FailedCalls(c, url, times);
            && after.metadata == c.metadata && |fetches| == |times|
            && forall i :: 0 <= i < |times| ==> fetches[i] == MetadataFetch(url, times[i].record, None, times[i].done)
  {
    assert url !in c.metadata;
    if times != [] {
      FirstMetadataIsNotLimited(c, log, clock, url, times[..|times| - 1]);
    }
  }

  // ----- exactly what is answered -----

  /** A metadata call answers with the last document that has arrived, its own included, unless it asked and got none that is usable. */
  lemma MetadataAnswers(c: Cache, log: seq<Fetch>, clock: nat, url: string, t: Times, response: Option<string>)
    requires Faithful(c, log, clock)
    ensures var (c', r, fetches) := MetadataFetched(c, url, t, response);
            if fetches == [] then LastDocument(log, url).Some? && r == Ok(LastDocument(log, url).value.jwksUri) && c' == c
            else
              && fetches == [MetadataFetch(url, t.record, if response == Some("") then None else response, t.done)]
              && r == match response
                      case None => Err(RequestFailed)
                      case Some(uri) => if uri == "" then Err(MissingJwksUri) else Ok(uri)
  {
    assert LastDocument(log, url) == if url in c.metadata then Some(c.metadata[url]) else None;
  }

  /** A key-set call answers with the key set that has arrived, is refused while the address rests, and otherwise answers as its request ends. */
  lemma JwksAnswers(c: Cache, log: seq<Fetch>, clock: nat, uri: string, t: Times, response: Option<Keys>)
    requires Faithful(c, log, clock)
    ensures var (c', r, fetches) := JwksFetched(c, uri, t, response);
            if fetches == [] then
              c' == c && r == if LastKeys(log, uri).Some? then Ok(LastKeys(log, uri).value) else Err(RateLimited)
            else
              && fetches == [JwksFetch(uri, t.record, response)]
              && r == if response.Some? then Ok(response.value) else Err(RequestFailed)
  {
    assert LastKeys(log, uri) == if uri in c.jwks then Some(c.jwks[uri]) else None;
  }
}
