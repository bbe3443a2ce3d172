/**
 * The relay server's `/api/connect` handler: it upserts every entry of the
 * request body into the option list of the "llm" entry of a module-level bot
 * configuration, forwards the whole payload to the bot-start endpoint and
 * relays the upstream answer. The configuration outlives the request, so
 * merges accumulate across requests.
 */
module Relay {
  import opened Common

  /** A JSON value, as carried by a request body and by the bot payload. */
  datatype Json =
    | JNull
    | JBool(b: bool)
    | JNum(n: real)
    | JStr(s: string)
    | JArr(items: seq<Json>)
    | JObj(fields: seq<(string, Json)>)

  /** One `{ name, value }` entry of a service's `options` list. */
  datatype ConfigOption = ConfigOption(name: string, value: Json)

  /** One `{ service, options }` entry of the payload's `config` list. */
  datatype ServiceConfig = ServiceConfig(service: string, options: seq<ConfigOption>)

  /** What the bot-start request and `response.json()` produced: a reply, or a thrown value
      (`Some(message)` for an `Error`, `None` for anything else). */
  datatype Upstream = Replied(status: int, data: Json) | Threw(error: Option<string>)

  datatype ResponseBody = Data(data: Json) | ErrorBody(error: string, message: string)

  datatype Response = Response(status: int, body: ResponseBody)

  const LlmService := "llm"
  const LlmNotFound := "LLM service not found in payload"
  const InternalError := "Internal server error"
  const UnknownError := "Unknown error"

  /** The `config` list of the payload as the server starts with it. */
  function InitialConfig(): seq<ServiceConfig>
  {
    [ ServiceConfig("vad", [ConfigOption("params", JObj([("stop_secs", JNum(0.7))]))]),
      ServiceConfig("llm", [ ConfigOption("model", JStr("gemini-1.5-flash-latest")),
                             ConfigOption("initial_messages", JArr([])),
                             ConfigOption("run_on_config", JBool(true)) ]) ]
  }

  /** `i` is the index `config.find(service => service.service === name)` lands on. */
  ghost predicate IsFirstService(config: seq<ServiceConfig>, name: string, i: int)
  {
    0 <= i < |config| && config[i].service == name &&
    forall j :: 0 <= j < i ==> config[j].service != name
  }

  /** `options.findIndex(option => option.name === key)`: the first index named `key`, or -1. */
  function FirstOptionIndex(options: seq<ConfigOption>, key: string): (i: int)
    ensures -1 <= i < |options|
    ensures i == -1 <==> forall j :: 0 <= j < |options| ==> options[j].name != key
    ensures 0 <= i ==> options[i].name == key && forall j :: 0 <= j < i ==> options[j].name != key
  {
    if options == [] then -1
    else if options[0].name == key then 0
    else
      var i := FirstOptionIndex(options[1..], key);
      if i == -1 then -1 else i + 1
  }

  /** One step of the body loop: replace the value of the first option named `key`,
      or append `{ name: key, value }` when there is none. */
  function Upsert(options: seq<ConfigOption>, key: string, value: Json): (r: seq<ConfigOption>)
    ensures |r| == |options| + (if FirstOptionIndex(options, key) == -1 then 1 else 0)
    ensures 0 <= FirstOptionIndex(r, key) && r[FirstOptionIndex(r, key)].value == value
    ensures forall j :: 0 <= j < |options| ==> r[j].name == options[j].name
    ensures forall j :: 0 <= j < |options| && j != FirstOptionIndex(options, key) ==> r[j] == options[j]
    ensures FirstOptionIndex(options, key) == -1 ==> r[|options|] == ConfigOption(key, value)
  {
    var i := FirstOptionIndex(options, key);
    if i == -1 then
      var r := options + [ConfigOption(key, value)];
      assert forall j :: 0 <= j < |options| ==> r[j] == options[j];
      assert r[|options|].name == key;
      assert FirstOptionIndex(r, key) == |options|;
      r
    else
      var r := options[i := options[i].(value := value)];
      assert forall j :: 0 <= j < |options| ==> r[j].name == options[j].name;
      r
  }

  /** The options after the loop has processed every entry of `body`, in order. */
  function Merge(options: seq<ConfigOption>, body: seq<(string, Json)>): seq<ConfigOption>
    decreases |body|
  {
    if body == [] then options
    else
      var last := body[|body| - 1];
      Upsert(Merge(options, body[..|body| - 1]), last.0, last.1)
  }

  /** The keys of a request body. */
  function Keys(body: seq<(string, Json)>): set<string>
    decreases |body|
  {
    if body == [] then {} else Keys(body[..|body| - 1]) + {body[|body| - 1].0}
  }

  /** A body parsed from JSON into an object has each key once. */
  predicate DistinctKeys(body: seq<(string, Json)>)
  {
    forall i, j :: 0 <= i < j < |body| ==> body[i].0 != body[j].0
  }

  /** How many entries of `body` name no option of `options`. */
  function CountNew(options: seq<ConfigOption>, body: seq<(string, Json)>): nat
    decreases |body|
  {
    if body == [] then 0
    else
      CountNew(options, body[..|body| - 1])
        + (if FirstOptionIndex(options, body[|body| - 1].0) == -1 then 1 else 0)
  }

  /** Options keep their position and name; those not named by a body key also keep
      their value; whatever is added is added at the end and is named by a body key. */
  lemma {:induction false} MergePreserves(options: seq<ConfigOption>, body: seq<(string, Json)>)
    ensures |Merge(options, body)| >= |options|
    ensures forall j :: 0 <= j < |options| ==> Merge(options, body)[j].name == options[j].name
    ensures forall j :: 0 <= j < |options| && options[j].name !in Keys(body) ==>
              Merge(options, body)[j] == options[j]
    ensures forall j :: |options| <= j < |Merge(options, body)| ==> Merge(options, body)[j].name in Keys(body)
    decreases |body|
  {
    if body != [] {
      var init, last := body[..|body| - 1], body[|body| - 1];
      MergePreserves(options, init);
      var m := Merge(options, init);
      var i := FirstOptionIndex(m, last.0);
      assert Merge(options, body) == Upsert(m, last.0, last.1);
      assert Keys(body) == Keys(init) + {last.0};
      forall j | 0 <= j < |options| && options[j].name !in Keys(body)
        ensures Merge(options, body)[j] == options[j]
      {
        assert m[j].name == options[j].name;
        assert j != i;
      }
    }
  }

  /** Upserting one key does not move the first option named by any other key. */
  lemma UpsertKeepsOtherKey(options: seq<ConfigOption>, key: string, value: Json, other: string)
    requires other != key
    ensures FirstOptionIndex(Upsert(options, key, value), other) == FirstOptionIndex(options, other)
  {
  }

  /** Whether a name is taken after a merge: it was taken before, or it is a body key. */
  lemma {:induction false} MergeNames(options: seq<ConfigOption>, body: seq<(string, Json)>, k: string)
    ensures FirstOptionIndex(Merge(options, body), k) == -1 <==>
              FirstOptionIndex(options, k) == -1 && k !in Keys(body)
    decreases |body|
  {
    if body != [] {
      var init, last := body[..|body| - 1], body[|body| - 1];
      MergeNames(options, init, k);
      if k != last.0 {
        UpsertKeepsOtherKey(Merge(options, init), last.0, last.1, k);
      }
    }
  }

  /** After a merge of a body with distinct keys, the first option named by each body key
      holds that key's value. */
  lemma {:induction false} MergeSetsValues(options: seq<ConfigOption>, body: seq<(string, Json)>)
    requires DistinctKeys(body)
    ensures forall i :: 0 <= i < |body| ==>
              0 <= FirstOptionIndex(Merge(options, body), body[i].0) &&
              Merge(options, body)[FirstOptionIndex(Merge(options, body), body[i].0)].value == body[i].1
    decreases |body|
  {
    if body != [] {
      var init, last := body[..|body| - 1], body[|body| - 1];
      MergeSetsValues(options, init);
      var m := Merge(options, init);
      forall i | 0 <= i < |init|
        ensures 0 <= FirstOptionIndex(Merge(options, body), body[i].0) &&
                Merge(options, body)[FirstOptionIndex(Merge(options, body), body[i].0)].value == body[i].1
      {
        assert init[i] == body[i];
        UpsertKeepsOtherKey(m, last.0, last.1, body[i].0);
        var p := FirstOptionIndex(m, body[i].0);
        assert p != FirstOptionIndex(m, last.0) by {
          if FirstOptionIndex(m, last.0) != -1 {
            assert m[FirstOptionIndex(m, last.0)].name == last.0;
          }
        }
      }
    }
  }

  /** Merging a body whose every key already holds its value (in the first option of that
      name) changes nothing. */
  lemma {:induction false} MergeAlreadyApplied(options: seq<ConfigOption>, body: seq<(string, Json)>)
    requires forall i :: 0 <= i < |body| ==>
               0 <= FirstOptionIndex(options, body[i].0) &&
               options[FirstOptionIndex(options, body[i].0)].value == body[i].1
    ensures Merge(options, body) == options
    decreases |body|
  {
    if body != [] {
      var init, last := body[..|body| - 1], body[|body| - 1];
      assert forall i :: 0 <= i < |init| ==> init[i] == body[i];
      MergeAlreadyApplied(options, init);
      var p := FirstOptionIndex(options, last.0);
      assert options[p].(value := last.1) == options[p];
    }
  }

  /** Merging the same body twice gives the same options as merging it once. */
  lemma MergeIdempotent(options: seq<ConfigOption>, body: seq<(string, Json)>)
    requires DistinctKeys(body)
    ensures Merge(Merge(options, body), body) == Merge(options, body)
  {
    MergeSetsValues(options, body);
    MergeAlreadyApplied(Merge(options, body), body);
  }

  /** For a body with distinct keys the list grows by exactly the number of keys that
      named no option before. */
  lemma {:induction false} MergeGrowth(options: seq<ConfigOption>, body: seq<(string, Json)>)
    requires DistinctKeys(body)
    ensures |Merge(options, body)| == |options| + CountNew(options, body)
    decreases |body|
  {
    if body != [] {
      var init, last := body[..|body| - 1], body[|body| - 1];
      MergeGrowth(options, init);
      MergeNames(options, init, last.0);
      KeysMembers(init, last.0);
    }
  }

  /** A key occurs in `Keys(body)` only if some entry of `body` carries it. */
  lemma {:induction false} KeysMembers(body: seq<(string, Json)>, k: string)
    ensures k in Keys(body) <==> exists i :: 0 <= i < |body| && body[i].0 == k
    decreases |body|
  {
    if body != [] {
      var init := body[..|body| - 1];
      KeysMembers(init, k);
      if exists i :: 0 <= i < |init| && init[i].0 == k {
        var i :| 0 <= i < |init| && init[i].0 == k;
        assert body[i].0 == k;
      }
      if exists i :: 0 <= i < |body| && body[i].0 == k {
        var i :| 0 <= i < |body| && body[i].0 == k;
        if i < |init| { assert init[i].0 == k; }
      }
    }
  }

  /** The response the handler sends for what the upstream call produced: a reply is passed
      through with its status and data; a thrown value becomes a 500. */
  function Respond(upstream: Upstream): (r: Response)
    ensures upstream.Replied? ==> r.status == upstream.status && r.body == Data(upstream.data)
    ensures upstream.Threw? ==>
              r.status == 500 && r.body.ErrorBody? && r.body.error == InternalError &&
              r.body.message == (if upstream.error.Some? then upstream.error.value else UnknownError)
  {
    match upstream
    case Replied(status, data) =>
      if status != 200 then Response(status, Data(data)) else Response(200, Data(data))
    case Threw(error) =>
      Response(500, ErrorBody(InternalError, if error.Some? then error.value else UnknownError))
  }

  /** `config.find(...)` as an index: the first entry for `name`, or -1. */
  method FindService(config: seq<ServiceConfig>, name: string) returns (i: int)
    ensures i == -1 <==> forall j :: 0 <= j < |config| ==> config[j].service != name
    ensures i != -1 ==> IsFirstService(config, name, i)
  {
    i := 0;
    while i < |config|
      invariant 0 <= i <= |config|
      invariant forall j :: 0 <= j < i ==> config[j].service != name
    {
      if config[i].service == name {
        return;
      }
      i := i + 1;
    }
    i := -1;
  }

  /** `options.findIndex(option => option.name === key)`. */
  method FindOptionIndex(options: seq<ConfigOption>, key: string) returns (i: int)
    ensures i == FirstOptionIndex(options, key)
  {
    i := 0;
    while i < |options|
      invariant 0 <= i <= |options|
      invariant forall j :: 0 <= j < i ==> options[j].name != key
    {
      if options[i].name == key {
        return;
      }
      i := i + 1;
    }
    i := -1;
  }

  /** The server process: its module-level payload, reduced to the `config` list the
      handler reads and writes. */
  class RelayServer {
    var config: seq<ServiceConfig>

    constructor ()
      ensures config == InitialConfig()
    {
      config := InitialConfig();
    }

    /** The `/api/connect` handler. `forwarded` is the configuration sent to the bot-start
        endpoint, or None when no request was made. */
    method HandleConnect(body: seq<(string, Json)>, upstream: Upstream)
      returns (resp: Response, forwarded: Option<seq<ServiceConfig>>)
      modifies this
      ensures (forall j :: 0 <= j < |old(config)| ==> old(config)[j].service != LlmService) ==>
                config == old(config) && forwarded == None &&
                resp == Response(500, ErrorBody(InternalError, LlmNotFound))
      ensures forall i {:trigger IsFirstService(old(config), LlmService, i)} ::
                IsFirstService(old(config), LlmService, i) ==>
                  config == old(config)[i := old(config)[i].(options := Merge(old(config)[i].options, body))] &&
                  forwarded == Some(config) && resp == Respond(upstream)
    {
      var llm := FindService(config, LlmService);
      if llm == -1 {
        resp := Respond(Threw(Some(LlmNotFound)));
        forwarded := None;
        return;
      }
      ghost var before := config;
      var k := 0;
      while k < |body|
        invariant 0 <= k <= |body|
        invariant config == before[llm := before[llm].(options := Merge(before[llm].options, body[..k]))]
      {
        var (key, value) := body[k];
        var options := config[llm].options;
        var i := FindOptionIndex(options, key);
        if i == -1 {
          options := options + [ConfigOption(key, value)];
        } else {
          options := options[i := options[i].(value := value)];
        }
        config := config[llm := config[llm].(options := options)];
        assert body[..k + 1][..k] == body[..k];
        k := k + 1;
      }
      assert body[..k] == body;
      forwarded := Some(config);
      resp := Respond(upstream);
      assert IsFirstService(before, LlmService, llm);
    }
  }

  /** A request that carries the same body as the previous one leaves the configuration
      as it is, because the payload persists between requests. */
  method RepeatedRequest(body: seq<(string, Json)>)
    requires DistinctKeys(body)
  {
    var server := new RelayServer();
    assert IsFirstService(InitialConfig(), LlmService, 1);
    var _, _ := server.HandleConnect(body, Replied(200, JNull));
    var once := server.config;
    assert once[0] == InitialConfig()[0];
    var _, _ := server.HandleConnect(body, Replied(200, JNull));
    assert IsFirstService(once, LlmService, 1);
    MergeIdempotent(InitialConfig()[1].options, body);
    assert server.config == once;
  }
}
