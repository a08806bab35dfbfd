/** The option-assembly policy of the cURL client: the ten default options, the
    two adjustments the environment and the URL make to the class-wide defaults,
    and the overlay of the caller's overrides, each resolved through PHP's
    `constant` lookup of its upper-cased key. */
module CurlOptions {
  import opened Php

  /** The integer a cURL option constant stands for. */
  type OptionId = int

  const OptUrl: OptionId := 10002
  const OptHttpHeader: OptionId := 10023
  const OptReturnTransfer: OptionId := 19913
  const OptMaxRedirs: OptionId := 68
  const OptTimeout: OptionId := 13
  const OptConnectTimeout: OptionId := 78
  const OptFollowLocation: OptionId := 52
  const OptCrlf: OptionId := 27
  const OptSslVersion: OptionId := 32
  const OptSslVerifyPeer: OptionId := 64
  const OptCustomRequest: OptionId := 10036
  const OptPostFields: OptionId := 10015

  /** The option ids every merged option map starts from. */
  const DefaultIds: set<OptionId> :=
    {OptUrl, OptHttpHeader, OptReturnTransfer, OptMaxRedirs, OptTimeout,
     OptConnectTimeout, OptFollowLocation, OptCrlf, OptSslVersion, OptSslVerifyPeer}

  /** The class-wide default values (static fields of the base class); two of
      them are rewritten by every option assembly. */
  datatype Defaults = Defaults(
    httpHeader: Value,
    returnTransfer: Value,
    maxRedirects: Value,
    timeout: Value,
    connectTimeout: Value,
    followLocation: Value,
    crlf: Value,
    sslVersion: Value,
    sslVerify: Value)

  /** What `ini_get` reports, already converted to booleans. */
  datatype Env = Env(safeMode: bool, openBasedir: bool)

  predicate Restricted(env: Env) {
    env.safeMode || env.openBasedir
  }

  /** `isUrlHttps`: an anchored, case-sensitive regular-expression match of
      "https://" at the start of the URL, i.e. a prefix test; a URL
      that was never set (null) does not match. */
  predicate IsUrlHttps(url: Option<string>)
    ensures IsUrlHttps(url) <==> url.Some? && |url.value| >= 8 && url.value[..8] == "https://"
  {
    url.Some? && "https://" <= url.value
  }

  lemma HttpsIffPrefix(u: string)
    ensures IsUrlHttps(Some(u)) <==> |u| >= 8 && u == "https://" + u[8..]
  {
    if IsUrlHttps(Some(u)) {
      assert u[..8] == "https://";
      assert u == u[..8] + u[8..];
    }
  }

  /** The prefix test does not fold case: an upper-case scheme is not https. */
  lemma HttpsIsCaseSensitive(rest: string)
    ensures IsUrlHttps(Some("https://" + rest))
    ensures !IsUrlHttps(Some("HTTPS://" + rest))
  {
    assert ("HTTPS://" + rest)[0] == 'H';
  }

  /** The two adjustments made to the class-wide defaults before assembling options. */
  function AdjustDefaults(d: Defaults, env: Env, url: Option<string>): (r: Defaults)
    ensures r.followLocation == if Restricted(env) then Bool(false) else d.followLocation
    ensures r.sslVerify == if IsUrlHttps(url) then Bool(true) else d.sslVerify
    ensures r == d.(followLocation := r.followLocation, sslVerify := r.sslVerify)
  {
    var d1 := if Restricted(env) then d.(followLocation := Bool(false)) else d;
    if IsUrlHttps(url) then d1.(sslVerify := Bool(true)) else d1
  }

  /** The class-wide defaults after a series of option assemblies, each with its
      own environment and URL (possibly by different client instances). */
  function AdjustMany(d: Defaults, calls: seq<(Env, Option<string>)>): Defaults
    decreases |calls|
  {
    if calls == [] then d
    else AdjustMany(AdjustDefaults(d, calls[0].0, calls[0].1), calls[1..])
  }

  /** Once on, SSL verification is never switched back off by option assembly. */
  lemma {:induction false} VerifyStaysOn(d: Defaults, calls: seq<(Env, Option<string>)>)
    requires d.sslVerify == Bool(true)
    ensures AdjustMany(d, calls).sslVerify == Bool(true)
    decreases |calls|
  {
    if calls != [] {
      VerifyStaysOn(AdjustDefaults(d, calls[0].0, calls[0].1), calls[1..]);
    }
  }

  /** One https URL anywhere in the series leaves SSL verification on for good,
      including for the plain-http calls after it. */
  lemma {:induction false} HttpsForcesVerify(d: Defaults, calls: seq<(Env, Option<string>)>, i: nat)
    requires i < |calls| && IsUrlHttps(calls[i].1)
    ensures AdjustMany(d, calls).sslVerify == Bool(true)
    decreases |calls|
  {
    var d1 := AdjustDefaults(d, calls[0].0, calls[0].1);
    if i == 0 {
      VerifyStaysOn(d1, calls[1..]);
    } else {
      HttpsForcesVerify(d1, calls[1..], i - 1);
    }
  }

  /** Once off, following redirects is never switched back on by option assembly. */
  lemma {:induction false} FollowStaysOff(d: Defaults, calls: seq<(Env, Option<string>)>)
    requires d.followLocation == Bool(false)
    ensures AdjustMany(d, calls).followLocation == Bool(false)
    decreases |calls|
  {
    if calls != [] {
      FollowStaysOff(AdjustDefaults(d, calls[0].0, calls[0].1), calls[1..]);
    }
  }

  /** One restricted environment anywhere in the series switches redirects off for good. */
  lemma {:induction false} RestrictedForcesNoFollow(d: Defaults, calls: seq<(Env, Option<string>)>, i: nat)
    requires i < |calls| && Restricted(calls[i].0)
    ensures AdjustMany(d, calls).followLocation == Bool(false)
    decreases |calls|
  {
    var d1 := AdjustDefaults(d, calls[0].0, calls[0].1);
    if i == 0 {
      FollowStaysOff(d1, calls[1..]);
    } else {
      RestrictedForcesNoFollow(d1, calls[1..], i - 1);
    }
  }

  /** Option assembly only ever touches the two flags: the other seven
      defaults keep their values through any series of calls. */
  lemma {:induction false} OtherDefaultsUntouched(d: Defaults, calls: seq<(Env, Option<string>)>)
    ensures var r := AdjustMany(d, calls);
      r == d.(followLocation := r.followLocation, sslVerify := r.sslVerify)
    decreases |calls|
  {
    if calls != [] {
      OtherDefaultsUntouched(AdjustDefaults(d, calls[0].0, calls[0].1), calls[1..]);
    }
  }

  /** `CURLOPT_URL` holds the stored URL as is, or null when none was set. */
  function UrlValue(url: Option<string>): Value {
    match url
    case None => Null
    case Some(u) => Str(u)
  }

  /** The ten-entry option array the assembly starts from. */
  function DefaultOptions(d: Defaults, url: Option<string>): (r: map<OptionId, Value>)
    ensures r.Keys == DefaultIds && |r| == 10
    ensures r[OptUrl] == UrlValue(url)
    ensures r[OptFollowLocation] == d.followLocation && r[OptSslVerifyPeer] == d.sslVerify
    ensures r[OptHttpHeader] == d.httpHeader && r[OptReturnTransfer] == d.returnTransfer
    ensures r[OptMaxRedirs] == d.maxRedirects && r[OptTimeout] == d.timeout
    ensures r[OptConnectTimeout] == d.connectTimeout && r[OptCrlf] == d.crlf
    ensures r[OptSslVersion] == d.sslVersion
    ensures OptCustomRequest !in r && OptPostFields !in r
  {
    DefaultIdsCount();
    map id | id in DefaultIds :: DefaultValue(d, url, id)
  }

  /** The value the option array gives one of the ten default ids. */
  function DefaultValue(d: Defaults, url: Option<string>, id: OptionId): Value {
    if id == OptUrl then UrlValue(url)
    else if id == OptHttpHeader then d.httpHeader
    else if id == OptReturnTransfer then d.returnTransfer
    else if id == OptMaxRedirs then d.maxRedirects
    else if id == OptTimeout then d.timeout
    else if id == OptConnectTimeout then d.connectTimeout
    else if id == OptFollowLocation then d.followLocation
    else if id == OptCrlf then d.crlf
    else if id == OptSslVersion then d.sslVersion
    else d.sslVerify
  }

  lemma DefaultIdsCount()
    ensures |DefaultIds| == 10
  {
    var s1 := {OptUrl, OptHttpHeader, OptReturnTransfer, OptMaxRedirs, OptTimeout};
    var s2 := {OptConnectTimeout, OptFollowLocation, OptCrlf, OptSslVersion, OptSslVerifyPeer};
    assert |s1| == 5;
    assert |s2| == 5;
    assert s1 !! s2;
    assert DefaultIds == s1 + s2;
  }

  // ---------------------------------------------------------------------------
  // Overlaying the overrides

  /** The constants `constant()` knows, by name. */
  type ConstantTable = map<string, OptionId>

  /** The constant named by the upper-cased key, or None when PHP knows no such constant. */
  function Resolve(table: ConstantTable, key: string): (r: Option<OptionId>)
    ensures r.Some? <==> Upper(key) in table
    ensures r.Some? ==> r.value == table[Upper(key)]
  {
    Get(table, Upper(key))
  }

  /** The `foreach` over the overrides, in array order: each override is written
      at the id its key resolves to; the first key that resolves to nothing
      aborts the assembly with that (upper-cased) name. */
  function Overlay(base: map<OptionId, Value>, overrides: seq<(string, Value)>, table: ConstantTable)
    : (r: Result<map<OptionId, Value>, string>)
    ensures r.Ok? ==> base.Keys <= r.value.Keys
    ensures r.Ok? ==> forall j :: 0 <= j < |overrides| ==>
                        Resolve(table, overrides[j].0).Some? && Resolve(table, overrides[j].0).value in r.value
    decreases |overrides|
  {
    if overrides == [] then Ok(base)
    else match Resolve(table, overrides[0].0)
      case None => Err(Upper(overrides[0].0))
      case Some(id) => Overlay(base[id := overrides[0].1], overrides[1..], table)
  }

  /** The merged option map of one assembly, from the already adjusted defaults. */
  function Merge(d: Defaults, url: Option<string>, overrides: seq<(string, Value)>, table: ConstantTable)
    : (r: Result<map<OptionId, Value>, string>)
    ensures r.Ok? ==> DefaultIds <= r.value.Keys
    ensures overrides == [] ==> r == Ok(DefaultOptions(d, url))
  {
    Overlay(DefaultOptions(d, url), overrides, table)
  }

  /** One step of the overlay: the first override either names no constant,
      which ends the assembly with its upper-cased name, or is written over
      the options built so far before the rest is overlaid. */
  lemma OverlayStep(base: map<OptionId, Value>, overrides: seq<(string, Value)>, table: ConstantTable)
    requires overrides != []
    ensures Upper(overrides[0].0) !in table ==> Overlay(base, overrides, table) == Err(Upper(overrides[0].0))
    ensures Upper(overrides[0].0) in table ==>
      Overlay(base, overrides, table) == Overlay(base[table[Upper(overrides[0].0)] := overrides[0].1], overrides[1..], table)
  {
  }

  /** Reference definition: the value of the last override in array order whose
      key resolves to `id`. */
  function LastValue(overrides: seq<(string, Value)>, table: ConstantTable, id: OptionId): Option<Value>
    decreases |overrides|
  {
    if overrides == [] then None
    else match LastValue(overrides[1..], table, id)
      case Some(v) => Some(v)
      case None => if Resolve(table, overrides[0].0) == Some(id) then Some(overrides[0].1) else None
  }

  /** Reference definition: what `id` ends up holding — the last override for it
      when there is one, otherwise the base entry. */
  function Effective(base: map<OptionId, Value>, overrides: seq<(string, Value)>, table: ConstantTable, id: OptionId)
    : Option<Value>
  {
    match LastValue(overrides, table, id)
    case Some(v) => Some(v)
    case None => Get(base, id)
  }

  /** No override resolves to `id` exactly when there is no last override for it. */
  lemma {:induction false} LastValueNoneIff(overrides: seq<(string, Value)>, table: ConstantTable, id: OptionId)
    ensures LastValue(overrides, table, id).None?
        <==> forall j :: 0 <= j < |overrides| ==> Resolve(table, overrides[j].0) != Some(id)
    decreases |overrides|
  {
    if overrides != [] {
      LastValueNoneIff(overrides[1..], table, id);
      assert forall j :: 1 <= j < |overrides| ==> overrides[j] == overrides[1..][j - 1];
    }
  }

  /** The override at index `i` is the last word on its id when no later
      override resolves to the same id — later entries win. */
  lemma {:induction false} LastValueAt(overrides: seq<(string, Value)>, table: ConstantTable, i: nat)
    requires i < |overrides| && Resolve(table, overrides[i].0).Some?
    requires forall j :: i < j < |overrides| ==> Resolve(table, overrides[j].0) != Resolve(table, overrides[i].0)
    ensures LastValue(overrides, table, Resolve(table, overrides[i].0).value) == Some(overrides[i].1)
    decreases |overrides|
  {
    var id := Resolve(table, overrides[i].0).value;
    if i == 0 {
      LastValueNoneIff(overrides[1..], table, id);
    } else {
      LastValueAt(overrides[1..], table, i - 1);
    }
  }

  /** The assembly succeeds exactly when every override key names a constant. */
  lemma {:induction false} OverlayOkIff(base: map<OptionId, Value>, overrides: seq<(string, Value)>, table: ConstantTable)
    ensures Overlay(base, overrides, table).Ok?
        <==> forall j :: 0 <= j < |overrides| ==> Resolve(table, overrides[j].0).Some?
    decreases |overrides|
  {
    if overrides != [] {
      assert forall j :: 1 <= j < |overrides| ==> overrides[j] == overrides[1..][j - 1];
      match Resolve(table, overrides[0].0)
      case None =>
      case Some(id) => OverlayOkIff(base[id := overrides[0].1], overrides[1..], table);
    }
  }

  /** A failed assembly names the first override key, in array order, that
      resolves to nothing: every key before it resolved. */
  lemma {:induction false} OverlayErrNamesKey(base: map<OptionId, Value>, overrides: seq<(string, Value)>, table: ConstantTable)
    requires Overlay(base, overrides, table).Err?
    ensures exists j :: 0 <= j < |overrides| && Resolve(table, overrides[j].0).None?
                       && Overlay(base, overrides, table).error == Upper(overrides[j].0)
                       && forall k :: 0 <= k < j ==> Resolve(table, overrides[k].0).Some?
    decreases |overrides|
  {
    match Resolve(table, overrides[0].0)
    case None =>
      assert Resolve(table, overrides[0].0).None?;
    case Some(id) =>
      OverlayErrNamesKey(base[id := overrides[0].1], overrides[1..], table);
      var j :| 0 <= j < |overrides[1..]| && Resolve(table, overrides[1..][j].0).None?
               && Overlay(base[id := overrides[0].1], overrides[1..], table).error == Upper(overrides[1..][j].0)
               && forall k :: 0 <= k < j ==> Resolve(table, overrides[1..][k].0).Some?;
      assert overrides[1..][j] == overrides[j + 1];
      assert forall k :: 1 <= k < j + 1 ==> overrides[k] == overrides[1..][k - 1];
  }

  /** Every id of a successful assembly holds its reference value: the last
      override for it, otherwise the base entry; no other id appears. */
  lemma {:induction false} OverlayValues(base: map<OptionId, Value>, overrides: seq<(string, Value)>, table: ConstantTable, m: map<OptionId, Value>)
    requires Overlay(base, overrides, table) == Ok(m)
    ensures forall id :: Get(m, id) == Effective(base, overrides, table, id)
    decreases |overrides|
  {
    if overrides != [] {
      var id0 := Resolve(table, overrides[0].0).value;
      var base' := base[id0 := overrides[0].1];
      OverlayValues(base', overrides[1..], table, m);
    }
  }

  /** With no overrides the merged map is exactly the ten defaults, and
      `CURLOPT_URL` is the stored URL unchanged. */
  lemma MergeWithoutOverrides(d: Defaults, url: Option<string>, table: ConstantTable)
    ensures Merge(d, url, [], table) == Ok(DefaultOptions(d, url))
    ensures Merge(d, url, [], table).value.Keys == DefaultIds
    ensures Merge(d, url, [], table).value[OptUrl] == UrlValue(url)
  {
  }

  /** A user override beats every default, including the URL and the two
      adjusted flags: the merged map holds it at `constant(strtoupper(key))`
      unless a later override resolves to the same id. */
  lemma UserOverrideWins(d: Defaults, url: Option<string>, overrides: seq<(string, Value)>, table: ConstantTable, i: nat)
    requires Merge(d, url, overrides, table).Ok?
    requires i < |overrides| && Resolve(table, overrides[i].0).Some?
    requires forall j :: i < j < |overrides| ==> Resolve(table, overrides[j].0) != Resolve(table, overrides[i].0)
    ensures var id := Resolve(table, overrides[i].0).value;
      var m := Merge(d, url, overrides, table).value;
      id in m && m[id] == overrides[i].1
  {
    var id := Resolve(table, overrides[i].0).value;
    var m := Merge(d, url, overrides, table).value;
    OverlayValues(DefaultOptions(d, url), overrides, table, m);
    LastValueAt(overrides, table, i);
    assert Get(m, id) == Some(overrides[i].1);
  }

  /** A default survives the merge unchanged when no override resolves to its id. */
  lemma DefaultKeptUnlessOverridden(d: Defaults, url: Option<string>, overrides: seq<(string, Value)>, table: ConstantTable, id: OptionId)
    requires Merge(d, url, overrides, table).Ok?
    requires id in DefaultIds
    requires forall j :: 0 <= j < |overrides| ==> Resolve(table, overrides[j].0) != Some(id)
    ensures var m := Merge(d, url, overrides, table).value;
      id in m && m[id] == DefaultOptions(d, url)[id]
  {
    var m := Merge(d, url, overrides, table).value;
    OverlayValues(DefaultOptions(d, url), overrides, table, m);
    LastValueNoneIff(overrides, table, id);
    assert Get(m, id) == Get(DefaultOptions(d, url), id);
  }

  /** Keys that differ only in letter case resolve to the same option, so of
      two such overrides the later one is the one that takes effect. */
  lemma CaseVariantsCollide(base: map<OptionId, Value>, k1: string, v1: Value, k2: string, v2: Value, table: ConstantTable)
    requires Upper(k1) == Upper(k2) && Upper(k1) in table
    ensures var m := Overlay(base, [(k1, v1), (k2, v2)], table);
      m.Ok? && m.value == base[table[Upper(k1)] := v2]
  {
    var id := table[Upper(k1)];
    assert Resolve(table, k1) == Some(id) && Resolve(table, k2) == Some(id);
    assert [(k1, v1), (k2, v2)][1..] == [(k2, v2)];
    assert [(k2, v2)][1..] == [];
    assert Overlay(base[id := v1], [(k2, v2)], table) == Overlay(base[id := v1][id := v2], [], table);
    assert base[id := v1][id := v2] == base[id := v2];
  }
}
