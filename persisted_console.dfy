/** The persisted VNC action (os-getVNCConsole-new) of nova's
    ConsolesController: it delegates to os-getVNCConsole, takes host, port and
    the `token` query value from the returned url, and makes one best-effort
    write of a session record for the console keeper into an expiring cache,
    keyed by the token.

    `urlparse` and `parse_qs` are library code and are not modelled: the
    controller holds them as one function `parse` from a url to its parsed
    parts. The cache client is a map whose `set` verdict is an input. */
module PersistedConsole {
  import opened ConsoleActions

  /** The `consolekeeper` configuration group, read-only at call time. */
  datatype KeeperConfig = KeeperConfig(
    host: string,
    port: string,
    expirySec: int,
    intervalSec: int,
    suicideSec: int)

  /** The registered defaults: empty strings and zeros. */
  const DefaultKeeperConfig: KeeperConfig := KeeperConfig("", "", 0, 0, 0)

  /** What `urlparse` and `parse_qs` give for a url: `hostname` and `port`
      (either may be absent) and the query as a map from parameter name to the
      list of its values. */
  datatype ParsedUrl = ParsedUrl(hostname: Option<string>, port: Option<int>, query: map<string, seq<string>>)

  /** The record stored under the token; one field per key of `token_dict`. */
  datatype SessionRecord = SessionRecord(
    consid: string,
    consolekeeperHost: string,
    consolekeeperPort: string,
    consolekeeperExpirySec: int,
    consolekeeperIntervalSec: int,
    vncHost: Option<string>,
    vncPort: Option<int>,
    suicideSec: int)

  /** One `set` into the cache: a key and the record written under it. */
  datatype Entry = Entry(key: string, record: SessionRecord)

  /** `param_dict["token"]` when there is no `token` parameter. */
  const MissingToken: Exception := Other("KeyError", "token")
  /** `param_dict["token"][0]` when the list of values is empty. */
  const EmptyToken: Exception := Other("IndexError", "list index out of range")

  predicate HasToken(query: map<string, seq<string>>)
  {
    "token" in query && |query["token"]| > 0
  }

  /** The exception raised while reading the token from a query without one. */
  function TokenFailure(query: map<string, seq<string>>): Exception
  {
    if "token" !in query then MissingToken else EmptyToken
  }

  /** The record carries the keeper values of `conf`. */
  predicate RecordCarriesConfig(conf: KeeperConfig, rec: SessionRecord)
  {
    && rec.consolekeeperHost == conf.host
    && rec.consolekeeperPort == conf.port
    && rec.consolekeeperExpirySec == conf.expirySec
    && rec.consolekeeperIntervalSec == conf.intervalSec
    && rec.suicideSec == conf.suicideSec
  }

  /** Every record in `store` carries the keeper values of `conf`. */
  ghost predicate CarriesConfig(conf: KeeperConfig, store: map<string, SessionRecord>)
  {
    forall k | k in store :: RecordCarriesConfig(conf, store[k])
  }

  /** What the persisted action hands back to its caller. The signature has no
      cache and no write verdict: the answer cannot depend on either. */
  function PersistedResponse(parse: string -> ParsedUrl, consoleType: Option<string>,
                             lookup: InstanceLookup, backend: BackendCall): (r: Response)
    // any failure of the VNC action propagates unchanged
    ensures !GetVncConsole(consoleType, lookup, backend).Console? ==> r == GetVncConsole(consoleType, lookup, backend)
    // the console is handed out exactly when VNC hands it out with a token in its url,
    // and then it is exactly what VNC returned
    ensures r.Console? <==> lookup.Found? && backend.Returned? && HasToken(parse(backend.url).query)
    ensures r.Console? ==> r == GetVncConsole(consoleType, lookup, backend)
    // a VNC url without a token value fails as an internal error
    ensures lookup.Found? && backend.Returned? && !HasToken(parse(backend.url).query) ==>
              r == Raised(TokenFailure(parse(backend.url).query))
  {
    var vncConsole := GetVncConsole(consoleType, lookup, backend);
    if !vncConsole.Console? then vncConsole
    else
      var parsed := parse(vncConsole.body.url);
      if HasToken(parsed.query) then vncConsole else Raised(TokenFailure(parsed.query))
  }

  /** The one cache `set` the persisted action makes, or `None` when it fails
      before reaching it. */
  function PersistedWrite(conf: KeeperConfig, parse: string -> ParsedUrl, id: string, consoleType: Option<string>,
                          lookup: InstanceLookup, backend: BackendCall): (w: Option<Entry>)
    // a write is made exactly when the caller gets a console
    ensures w.Some? <==> PersistedResponse(parse, consoleType, lookup, backend).Console?
    // keyed by the first token value, recording the request id, the url's host and
    // port and the configured keeper values
    ensures w.Some? ==>
              var parsed := parse(backend.url);
              && w.value.key == parsed.query["token"][0]
              && w.value.record.consid == id
              && w.value.record.vncHost == parsed.hostname
              && w.value.record.vncPort == parsed.port
              && RecordCarriesConfig(conf, w.value.record)
  {
    var vncConsole := GetVncConsole(consoleType, lookup, backend);
    if !vncConsole.Console? then None
    else
      var parsed := parse(vncConsole.body.url);
      if !HasToken(parsed.query) then None
      else
        Some(Entry(parsed.query["token"][0],
                   SessionRecord(id, conf.host, conf.port, conf.expirySec, conf.intervalSec,
                                 parsed.hostname, parsed.port, conf.suicideSec)))
  }

  /** The cache after the write `w`, given the store's verdict on it. */
  function AfterSet(store: map<string, SessionRecord>, w: Option<Entry>, accepted: bool): map<string, SessionRecord>
  {
    if w.Some? && accepted then store[w.value.key := w.value.record] else store
  }

  /** The cache client returned by `memorycache.get_client()`. Whether a
      `set` succeeds is decided by the store and is an input here; a failed
      `set` stores nothing. `Attempts` logs every `set` made, successful or not. */
  class MemoryCache {
    var entries: map<string, SessionRecord>
    ghost var Attempts: seq<Entry>

    constructor (initial: map<string, SessionRecord>)
      ensures entries == initial && Attempts == []
    {
      entries := initial;
      Attempts := [];
    }

    method Set(key: string, value: SessionRecord, accepted: bool) returns (ok: bool)
      modifies this
      ensures ok == accepted
      ensures entries == if accepted then old(entries)[key := value] else old(entries)
      ensures Attempts == old(Attempts) + [Entry(key, value)]
    {
      Attempts := Attempts + [Entry(key, value)];
      ok := accepted;
      if accepted {
        entries := entries[key := value];
      }
    }
  }

  /** The controller's state used by the persisted action: the keeper
      configuration, the url parser and the cache client `mc`. */
  class ConsolesController {
    const conf: KeeperConfig
    const parse: string -> ParsedUrl
    const mc: MemoryCache

    constructor (conf: KeeperConfig, parse: string -> ParsedUrl, mc: MemoryCache)
      ensures this.conf == conf && this.parse == parse && this.mc == mc
    {
      this.conf := conf;
      this.parse := parse;
      this.mc := mc;
    }

    /** os-getVNCConsole-new. `storeAccepts` is the cache's verdict on the write. */
    method GetVncConsoleNew(id: string, consoleType: Option<string>, lookup: InstanceLookup,
                            backend: BackendCall, storeAccepts: bool) returns (r: Response)
      modifies mc
      ensures r == PersistedResponse(parse, consoleType, lookup, backend)
      ensures mc.entries == AfterSet(old(mc.entries), PersistedWrite(conf, parse, id, consoleType, lookup, backend), storeAccepts)
      // exactly one set on the success path, none on a failure path
      ensures mc.Attempts == old(mc.Attempts) +
                (if r.Console? then [PersistedWrite(conf, parse, id, consoleType, lookup, backend).value] else [])
      ensures !r.Console? ==> mc.entries == old(mc.entries)
      // a rejected write changes neither the cache nor the answer
      ensures !storeAccepts ==> mc.entries == old(mc.entries)
    {
      var vncConsole := GetVncConsole(consoleType, lookup, backend);
      if !vncConsole.Console? {
        return vncConsole;
      }
      var parsed := parse(vncConsole.body.url);
      if !HasToken(parsed.query) {
        return Raised(TokenFailure(parsed.query));
      }
      var token := parsed.query["token"][0];
      var record := SessionRecord(id, conf.host, conf.port, conf.expirySec, conf.intervalSec,
                                  parsed.hostname, parsed.port, conf.suicideSec);
      var saved := mc.Set(token, record, storeAccepts);
      // when !saved the action only logs a warning; the console is returned either way
      r := vncConsole;
    }
  }

  /** One persisted-VNC request reaching the controller, with the cache's
      verdict on its write. */
  datatype Request = Request(id: string, consoleType: Option<string>, lookup: InstanceLookup,
                             backend: BackendCall, storeAccepts: bool)

  function WriteOf(conf: KeeperConfig, parse: string -> ParsedUrl, q: Request): Option<Entry>
  {
    PersistedWrite(conf, parse, q.id, q.consoleType, q.lookup, q.backend)
  }

  /** The answers to a series of persisted requests served one after another by
      one controller, and the cache afterwards. The controller never deletes. */
  function Serve(conf: KeeperConfig, parse: string -> ParsedUrl, store: map<string, SessionRecord>,
                 reqs: seq<Request>): (out: (seq<Response>, map<string, SessionRecord>))
    ensures |out.0| == |reqs|
    ensures store.Keys <= out.1.Keys
    decreases |reqs|
  {
    if reqs == [] then ([], store)
    else
      var q := reqs[0];
      var rest := Serve(conf, parse, AfterSet(store, WriteOf(conf, parse, q), q.storeAccepts), reqs[1..]);
      ([PersistedResponse(parse, q.consoleType, q.lookup, q.backend)] + rest.0, rest.1)
  }

  /** Each answer depends on its own request only: neither the cache, nor the
      store's verdicts, nor earlier requests affect it. */
  lemma {:induction false} ServeAnswersEachRequestAlone(conf: KeeperConfig, parse: string -> ParsedUrl,
                                                         store: map<string, SessionRecord>, reqs: seq<Request>)
    ensures forall i | 0 <= i < |reqs| ::
              Serve(conf, parse, store, reqs).0[i] == PersistedResponse(parse, reqs[i].consoleType, reqs[i].lookup, reqs[i].backend)
    decreases |reqs|
  {
    if reqs != [] {
      var q := reqs[0];
      var next := AfterSet(store, WriteOf(conf, parse, q), q.storeAccepts);
      ServeAnswersEachRequestAlone(conf, parse, next, reqs[1..]);
      forall i | 0 <= i < |reqs|
        ensures Serve(conf, parse, store, reqs).0[i] == PersistedResponse(parse, reqs[i].consoleType, reqs[i].lookup, reqs[i].backend)
      {
        if i > 0 {
          assert reqs[i] == reqs[1..][i - 1];
        }
      }
    }
  }

  /** Records written by the controller always carry its keeper configuration. */
  lemma {:induction false} ServeKeepsKeeperConfig(conf: KeeperConfig, parse: string -> ParsedUrl,
                                                  store: map<string, SessionRecord>, reqs: seq<Request>)
    requires CarriesConfig(conf, store)
    ensures CarriesConfig(conf, Serve(conf, parse, store, reqs).1)
    decreases |reqs|
  {
    if reqs != [] {
      var q := reqs[0];
      var w := WriteOf(conf, parse, q);
      var next := AfterSet(store, w, q.storeAccepts);
      assert CarriesConfig(conf, next);
      ServeKeepsKeeperConfig(conf, parse, next, reqs[1..]);
    }
  }

  /** Every entry of the final cache either was there before and was never
      overwritten, or is exactly the entry some accepted write put there: the
      key is that request's token and the record is the one built for it. */
  lemma {:induction false} ServeOnlyStoresWrites(conf: KeeperConfig, parse: string -> ParsedUrl,
                                                 store: map<string, SessionRecord>, reqs: seq<Request>)
    ensures var final := Serve(conf, parse, store, reqs).1;
            forall k | k in final ::
              || (k in store && final[k] == store[k])
              || exists i | 0 <= i < |reqs| :: reqs[i].storeAccepts && WriteOf(conf, parse, reqs[i]) == Some(Entry(k, final[k]))
    decreases |reqs|
  {
    if reqs != [] {
      var q := reqs[0];
      var w := WriteOf(conf, parse, q);
      var next := AfterSet(store, w, q.storeAccepts);
      var final := Serve(conf, parse, store, reqs).1;
      assert final == Serve(conf, parse, next, reqs[1..]).1;
      ServeOnlyStoresWrites(conf, parse, next, reqs[1..]);
      forall k | k in final
        ensures || (k in store && final[k] == store[k])
                || exists i | 0 <= i < |reqs| :: reqs[i].storeAccepts && WriteOf(conf, parse, reqs[i]) == Some(Entry(k, final[k]))
      {
        if k in next && final[k] == next[k] {
          if w.Some? && q.storeAccepts && k == w.value.key {
            assert reqs[0].storeAccepts && WriteOf(conf, parse, reqs[0]) == Some(Entry(k, final[k]));
          }
        } else {
          var j :| 0 <= j < |reqs[1..]| && reqs[1..][j].storeAccepts
                   && WriteOf(conf, parse, reqs[1..][j]) == Some(Entry(k, final[k]));
          assert reqs[j + 1] == reqs[1..][j];
        }
      }
    }
  }

  /** Two persisted requests served in turn by one controller give the answers
      and the cache that Serve describes. */
  method ServeTwo(c: ConsolesController, q1: Request, q2: Request) returns (a1: Response, a2: Response)
    modifies c.mc
    ensures [a1, a2] == Serve(c.conf, c.parse, old(c.mc.entries), [q1, q2]).0
    ensures c.mc.entries == Serve(c.conf, c.parse, old(c.mc.entries), [q1, q2]).1
  {
    ghost var before := c.mc.entries;
    a1 := c.GetVncConsoleNew(q1.id, q1.consoleType, q1.lookup, q1.backend, q1.storeAccepts);
    ghost var middle := c.mc.entries;
    a2 := c.GetVncConsoleNew(q2.id, q2.consoleType, q2.lookup, q2.backend, q2.storeAccepts);
    assert [q1, q2][1..] == [q2];
    assert [q2][1..] == [];
    assert middle == AfterSet(before, WriteOf(c.conf, c.parse, q1), q1.storeAccepts);
    assert c.mc.entries == AfterSet(middle, WriteOf(c.conf, c.parse, q2), q2.storeAccepts);
    assert Serve(c.conf, c.parse, c.mc.entries, []) == ([], c.mc.entries);
    assert Serve(c.conf, c.parse, middle, [q2]).1 == c.mc.entries;
    assert Serve(c.conf, c.parse, before, [q1, q2]).1 == Serve(c.conf, c.parse, middle, [q2]).1;
  }

  // Finding: consoles.py binds the function `urlparse` (`from urlparse import
  // urlparse`) and then calls `urlparse.urlparse` and `urlparse.parse_qs`, an
  // attribute lookup on a function object that raises AttributeError.

  const UrlparseAttributeError: Exception :=
    Other("AttributeError", "'function' object has no attribute 'urlparse'")

  /** os-getVNCConsole-new as written: every url the VNC action hands out
      ends in AttributeError before a record is built, so no write is made. */
  function GetVncConsoleNewAsWritten(consoleType: Option<string>, lookup: InstanceLookup, backend: BackendCall): (r: Response)
    ensures !r.Console?
    ensures GetVncConsole(consoleType, lookup, backend).Console? ==> r == Raised(UrlparseAttributeError)
    ensures !GetVncConsole(consoleType, lookup, backend).Console? ==> r == GetVncConsole(consoleType, lookup, backend)
  {
    var vncConsole := GetVncConsole(consoleType, lookup, backend);
    if vncConsole.Console? then Raised(UrlparseAttributeError) else vncConsole
  }

  const ExampleUrl: string := "vnc://10.0.0.5:5900/?token=abc123"

  /** What `urlparse` and `parse_qs` give for ExampleUrl. */
  function ExampleParse(url: string): ParsedUrl
  {
    if url == ExampleUrl then ParsedUrl(Some("10.0.0.5"), Some(5900), map["token" := ["abc123"]])
    else ParsedUrl(None, None, map[])
  }

  /** For a VNC console at ExampleUrl the code as written raises, while the
      intended action returns the console and writes the record under "abc123"
      with the url's host and port and the default keeper values. */
  lemma AsWrittenLosesExampleConsole(id: string, consoleType: Option<string>)
    ensures GetVncConsoleNewAsWritten(consoleType, Found, Returned(ExampleUrl)) == Raised(UrlparseAttributeError)
    ensures PersistedResponse(ExampleParse, consoleType, Found, Returned(ExampleUrl))
            == Console(ConsoleBody(consoleType, ExampleUrl))
    ensures PersistedWrite(DefaultKeeperConfig, ExampleParse, id, consoleType, Found, Returned(ExampleUrl))
            == Some(Entry("abc123", SessionRecord(id, "", "", 0, 0, Some("10.0.0.5"), Some(5900), 0)))
  {
  }
}
