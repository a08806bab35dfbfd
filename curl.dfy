/** The `Curl` client class: its per-instance URL and override array, the
    class-level state every instance shares (the static slot holding the
    engine handle, and the static default flags), and the operations that
    configure, run and tear down a transfer. */
module CurlClient {
  import opened Php
  import opened CurlOptions
  import opened CurlErrors

  /** One engine handle: the options pushed onto it, the error number and text
      of its last transfer, and whether it is still a live resource. */
  class Handle {
    var opts: map<OptionId, Value>
    var errno: int
    var error: string
    var live: bool

    /** `curl_init()`: a live handle with no options and no error. */
    constructor Init()
      ensures opts == map[] && errno == 0 && error == "" && live
    {
      opts, errno, error, live := map[], 0, "", true;
    }

    /** What the static handle slot holds before any client was constructed (null):
        not a resource, so every engine call on it fails. */
    constructor Unset()
      ensures opts == map[] && errno == 0 && error == "" && !live
    {
      opts, errno, error, live := map[], 0, "", false;
    }

    /** `curl_setopt_array`: overlays the entries on a live handle and never
        removes any; a handle that is not live is left as it is. */
    method SetOptArray(m: map<OptionId, Value>)
      modifies this`opts
      ensures opts == if live then old(opts) + m else old(opts)
    {
      if live {
        opts := opts + m;
      }
    }

    /** `curl_setopt` for a single option. */
    method SetOpt(id: OptionId, v: Value)
      modifies this`opts
      ensures opts == if live then old(opts)[id := v] else old(opts)
    {
      if live {
        opts := opts[id := v];
      }
    }

    /** `curl_exec`: a live handle performs the transfer and keeps its error
        number and text; any other handle returns false and keeps what it had. */
    method Exec(t: Transfer) returns (result: Value)
      modifies this`errno, this`error
      ensures result == if live then t.result else Bool(false)
      ensures errno == (if live then t.errno else old(errno))
      ensures error == (if live then t.error else old(error))
    {
      if live {
        result, errno, error := t.result, t.errno, t.error;
      } else {
        result := Bool(false);
      }
    }
  }

  /** The class-level state every `Curl` instance shares: the static slot
      holding the engine handle and the static default option values. */
  class Shared {
    var handle: Handle
    var defaults: Defaults

    constructor (defaults: Defaults)
      ensures this.defaults == defaults && fresh(handle) && !handle.live && handle.opts == map[]
    {
      this.defaults := defaults;
      handle := new Handle.Unset();
    }
  }

  class Curl {
    const shared: Shared
    var url: Option<string>
    var options: seq<(string, Value)>

    /** The overrides form a PHP array: each key at most once. */
    ghost predicate Valid()
      reads this
    {
      DistinctKeys(options)
    }

    /** `new Curl()` once the engine is known to be present: `curl_init()` and
        store its result in the shared slot, replacing the handle every other
        instance was using. `initSucceeded` is the engine's answer: when
        `curl_init()` fails it returns false, which is stored as it is and is
        no resource, so every later engine call on the slot fails. URL and
        overrides start out null. */
    constructor (shared: Shared, initSucceeded: bool)
      modifies shared`handle
      ensures this.shared == shared && url == None && options == [] && Valid()
      ensures fresh(shared.handle) && shared.handle.live == initSucceeded && shared.handle.opts == map[]
      ensures shared.handle.errno == 0 && shared.defaults == old(shared.defaults)
    {
      this.shared := shared;
      url := None;
      options := [];
      new;
      if initSucceeded {
        shared.handle := new Handle.Init();
      } else {
        shared.handle := new Handle.Unset();
      }
    }

    /** `new Curl()`: throws "Curl not installed." when `curl_version` is
        missing, and otherwise constructs the client. */
    static method Create(curlAvailable: bool, initSucceeded: bool, shared: Shared) returns (r: Result<Curl, Failure>)
      modifies shared`handle
      ensures r.Ok? <==> curlAvailable
      ensures r.Err? ==> r.error == NotInstalled && shared.handle == old(shared.handle)
      ensures r.Ok? ==> fresh(r.value) && r.value.shared == shared && r.value.url == None
                        && r.value.options == [] && r.value.Valid()
                        && fresh(shared.handle) && shared.handle.live == initSucceeded
                        && shared.handle.opts == map[]
    {
      if curlAvailable {
        var c := new Curl(shared, initSucceeded);
        r := Ok(c);
      } else {
        r := Err(NotInstalled);
      }
    }

    /** `setURL`: stores the URL verbatim. */
    method SetURL(u: string)
      modifies this`url
      ensures url == Some(u)
    {
      url := Some(u);
    }

    /** `setOption`: inserts or overwrites one override, leaving the others and
        their order alone. */
    method SetOption(key: string, value: Value)
      requires Valid()
      modifies this`options
      ensures Valid()
      ensures options == Put(old(options), key, value)
      ensures Lookup(options, key) == Some(value)
      ensures forall k :: k != key ==> Lookup(options, k) == Lookup(old(options), k)
    {
      PutKeepsKeysDistinct(options, key, value);
      options := Put(options, key, value);
    }

    /** `setOptions`: replaces the whole override array; the default argument
        is the empty array. */
    method SetOptions(newOptions: seq<(string, Value)> := [])
      requires DistinctKeys(newOptions)
      modifies this`options
      ensures Valid() && options == newOptions
    {
      options := newOptions;
    }

    /** `setMethod`: writes the upper-cased method and the encoded parameters
        straight onto the handle (not into the overrides) and returns the
        client itself. `encode` stands for `http_build_query`. */
    method SetMethod(encode: seq<(string, Value)> -> string, httpMethod: string := "POST",
                     params: seq<(string, Value)> := []) returns (self: Curl)
      modifies shared.handle`opts
      ensures self == this
      ensures shared.handle.opts ==
        if shared.handle.live
        then old(shared.handle.opts)[OptCustomRequest := Str(Upper(httpMethod))][OptPostFields := Str(encode(params))]
        else old(shared.handle.opts)
    {
      var postQuery := encode(params);
      shared.handle.SetOpt(OptCustomRequest, Str(Upper(httpMethod)));
      shared.handle.SetOpt(OptPostFields, Str(postQuery));
      self := this;
    }

    /** `getOptions`: adjusts the shared defaults for the environment and the
        URL, then overlays every override on the ten defaults in array order. */
    method GetOptions(env: Env, table: ConstantTable) returns (r: Result<map<OptionId, Value>, string>)
      modifies shared`defaults
      ensures shared.defaults == AdjustDefaults(old(shared.defaults), env, url)
      ensures r == Merge(shared.defaults, url, options, table)
    {
      if Restricted(env) {
        shared.defaults := shared.defaults.(followLocation := Bool(false));
      }
      if IsUrlHttps(url) {
        shared.defaults := shared.defaults.(sslVerify := Bool(true));
      }
      assert shared.defaults == AdjustDefaults(old(shared.defaults), env, url);
      var opts := DefaultOptions(shared.defaults, url);
      var i := 0;
      while i < |options|
        invariant 0 <= i <= |options|
        invariant shared.defaults == AdjustDefaults(old(shared.defaults), env, url)
        invariant Overlay(opts, options[i..], table) == Merge(shared.defaults, url, options, table)
      {
        var (key, val) := options[i];
        var name := Upper(key);
        OverlayStep(opts, options[i..], table);
        assert options[i..][1..] == options[i + 1..];
        if name !in table {
          return Err(name);
        }
        opts := opts[table[name] := val];
        i := i + 1;
      }
      return Ok(opts);
    }

    /** `getError`: the handle's error number and text when the number is
        positive, nothing otherwise. */
    function GetError(): (e: Option<ErrorInfo>)
      reads shared, shared.handle
      ensures e.Some? <==> shared.handle.live && shared.handle.errno > 0
      ensures e.Some? ==> e.value == ErrorInfo(shared.handle.errno, shared.handle.error)
    {
      ErrorOf(shared.handle.live, shared.handle.errno, shared.handle.error)
    }

    /** `execute`: pushes the merged options onto the shared handle, runs the
        transfer and returns its result, or throws when the result is falsy. */
    method Execute(env: Env, table: ConstantTable, t: Transfer) returns (r: Result<Value, Failure>)
      modifies shared`defaults, shared.handle`opts, shared.handle`errno, shared.handle`error
      ensures shared.defaults == AdjustDefaults(old(shared.defaults), env, url)
      ensures Merge(shared.defaults, url, options, table).Err? ==>
        && r == Err(UnknownOption(Merge(shared.defaults, url, options, table).error))
        && unchanged(shared.handle)
      ensures Merge(shared.defaults, url, options, table).Ok? ==>
        var m := Merge(shared.defaults, url, options, table).value;
        var live := shared.handle.live;
        && shared.handle.opts == (if live then old(shared.handle.opts) + m else old(shared.handle.opts))
        && shared.handle.errno == (if live then t.errno else old(shared.handle.errno))
        && shared.handle.error == (if live then t.error else old(shared.handle.error))
        && r == ExecOutcome(if live then t.result else Bool(false), GetError())
    {
      var merged := GetOptions(env, table);
      if merged.Err? {
        return Err(UnknownOption(merged.error));
      }
      shared.handle.SetOptArray(merged.value);
      var result := shared.handle.Exec(t);
      if !Truthy(result) {
        var error := GetError();
        return Err(TransferFailed(ErrorMessage(error)));
      }
      return Ok(result);
    }

    /** `getInfo`: always runs a fresh transfer first; `info` stands for what
        `curl_getinfo` then reports. */
    method GetInfo(env: Env, table: ConstantTable, t: Transfer, info: map<string, Value>)
      returns (r: Result<map<string, Value>, Failure>)
      modifies shared`defaults, shared.handle`opts, shared.handle`errno, shared.handle`error
      ensures shared.defaults == AdjustDefaults(old(shared.defaults), env, url)
      ensures Merge(shared.defaults, url, options, table).Err? ==>
        && r == Err(UnknownOption(Merge(shared.defaults, url, options, table).error))
        && unchanged(shared.handle)
      ensures Merge(shared.defaults, url, options, table).Ok? ==>
        var m := Merge(shared.defaults, url, options, table).value;
        var live := shared.handle.live;
        var outcome := ExecOutcome(if live then t.result else Bool(false), GetError());
        && shared.handle.opts == (if live then old(shared.handle.opts) + m else old(shared.handle.opts))
        && shared.handle.errno == (if live then t.errno else old(shared.handle.errno))
        && shared.handle.error == (if live then t.error else old(shared.handle.error))
        && r == (if outcome.Ok? then Ok(info) else Err(outcome.error))
    {
      var executed := Execute(env, table, t);
      if executed.Err? {
        return Err(executed.error);
      }
      return Ok(info);
    }

    /** `__destruct`: when the shared handle is still live, clears the URL and
        closes it; otherwise does nothing, so a second call is a no-op. */
    method Destruct()
      modifies this`url, shared.handle`live
      ensures !shared.handle.live
      ensures url == if old(shared.handle.live) then None else old(url)
    {
      if shared.handle.live {
        url := None;
        shared.handle.live := false;
      }
    }
  }

  /** An entry `setMethod` put on the handle outside the ten defaults survives
      a later `execute` unless an override resolves to the same option, in
      which case the last such override replaces it. */
  lemma HandleEntryAfterExecute(h: map<OptionId, Value>, d: Defaults, url: Option<string>,
                                overrides: seq<(string, Value)>, table: ConstantTable, id: OptionId)
    requires Merge(d, url, overrides, table).Ok?
    requires id !in DefaultIds
    ensures var m := Merge(d, url, overrides, table).value;
      Get(h + m, id) == match LastValue(overrides, table, id)
                        case Some(v) => Some(v)
                        case None => Get(h, id)
  {
    var m := Merge(d, url, overrides, table).value;
    OverlayValues(DefaultOptions(d, url), overrides, table, m);
    assert Get(m, id) == Effective(DefaultOptions(d, url), overrides, table, id);
  }

  /** The method set by `setMethod` is still on the handle after `execute`
      when no override names `CURLOPT_CUSTOMREQUEST`. */
  lemma MethodSurvivesExecute(h: map<OptionId, Value>, d: Defaults, url: Option<string>,
                              overrides: seq<(string, Value)>, table: ConstantTable)
    requires Merge(d, url, overrides, table).Ok?
    requires forall j :: 0 <= j < |overrides| ==> Resolve(table, overrides[j].0) != Some(OptCustomRequest)
    ensures var m := Merge(d, url, overrides, table).value;
      Get(h + m, OptCustomRequest) == Get(h, OptCustomRequest)
  {
    HandleEntryAfterExecute(h, d, url, overrides, table, OptCustomRequest);
    LastValueNoneIff(overrides, table, OptCustomRequest);
  }

  /** A client with no overrides whose shared handle is closed: `execute`
      fails with the text that carries neither message nor code, and the
      handle keeps its options. */
  method ExecuteOnClosedHandle(c: Curl, env: Env, table: ConstantTable, t: Transfer) returns (r: Result<Value, Failure>)
    requires !c.shared.handle.live && c.options == []
    modifies c.shared`defaults, c.shared.handle`opts, c.shared.handle`errno, c.shared.handle`error
    ensures r == Err(TransferFailed("Error:  and the Error no is:  "))
    ensures c.shared.handle.opts == old(c.shared.handle.opts)
    ensures c.shared.defaults == AdjustDefaults(old(c.shared.defaults), env, c.url)
  {
    r := c.Execute(env, table, t);
    assert Merge(c.shared.defaults, c.url, [], table).Ok?;
    assert c.GetError() == None;
    ErrorMessageFormat(None);
  }

  /** Two clients share one handle: tearing down one closes the handle the
      other uses, whose next `execute` then fails with an empty error text,
      and tearing down the second is a no-op on the handle. */
  method SharedHandleScenario(d: Defaults, table: ConstantTable, t: Transfer)
  {
    var shared := new Shared(d);
    var a := new Curl(shared, true);
    var b := new Curl(shared, true);
    assert a.shared.handle == b.shared.handle;
    b.SetURL("https://example.org/");
    a.Destruct();
    assert !b.shared.handle.live && b.options == [];
    var r := ExecuteOnClosedHandle(b, Env(false, false), table, t);
    b.Destruct();
    assert b.url == Some("https://example.org/");
    assert shared.defaults.sslVerify == Bool(true);
  }
}
