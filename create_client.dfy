/** `createClient`: a proxy whose property accesses accumulate a path and whose call POSTs the
    first argument to the URL that path names. */
module CreateClient {
  import opened Js

  /** The proxy `buildClient(props)`; accesses never change it, they build new ones. */
  datatype Client = Client(props: seq<string>)

  const Root := Client([])

  /** The `get` trap: "then" reads as `undefined`, so awaiting a client does not call it;
      any other name gives a builder one segment longer. */
  function Get(c: Client, prop: string): (r: Option<Client>)
    ensures r.None? <==> prop == "then"
    ensures r.Some? ==> r.value.props == c.props + [prop]
  {
    if prop == "then" then None else Some(Client(c.props + [prop]))
  }

  /** A chain of property accesses, `client.a.b.c`; `None` once a name reads `undefined`
      (reading further from `undefined` would throw). */
  function Access(c: Client, names: seq<string>): Option<Client>
    decreases |names|
  {
    if names == [] then Some(c)
    else
      match Access(c, names[..|names| - 1])
      case None => None
      case Some(c') => Get(c', names[|names| - 1])
  }

  /** Without "then" in the chain, the client reached is the one whose path is the old path
      followed by the names in the order they were read. */
  lemma {:induction false} AccessPath(c: Client, names: seq<string>)
    ensures "then" !in names ==> Access(c, names) == Some(Client(c.props + names))
    ensures "then" in names ==> Access(c, names).None?
    decreases |names|
  {
    if names == [] {
      assert c.props + names == c.props;
    } else {
      var init := names[..|names| - 1];
      var last := names[|names| - 1];
      AccessPath(c, init);
      assert names == init + [last];
      assert "then" in names <==> "then" in init || last == "then";
      if "then" !in names {
        assert c.props + init + [last] == c.props + names;
      }
    }
  }

  /** The optional configuration; `baseUrl` is `None` when `null` or `undefined`. */
  datatype Config = NoConfig | Config(baseUrl: Option<string>)

  /** `(config ? config.baseUrl ?? "" : "") + path.join("/")`. */
  function Url(config: Config, c: Client): (r: string)
    ensures config.Config? && config.baseUrl.Some? ==> r == config.baseUrl.value + Join(c.props, "/")
    ensures (config.NoConfig? || config.baseUrl.None?) ==> r == Join(c.props, "/")
  {
    (if config.Config? && config.baseUrl.Some? then config.baseUrl.value else "") + Join(c.props, "/")
  }

  /** The request `apply` sends: a POST of `JSON.stringify(args[0])` with fixed options. */
  datatype Request = Request(
    url: string,
    httpMethod: string,
    body: Option<string>,
    contentType: string,
    cache: string,
    credentials: string)

  /** `JSON.stringify`, `None` for `undefined`; a parameter of the model. */
  type Json = Value -> Option<string>

  function FirstArgument(args: seq<Value>): Value {
    if args == [] then Undefined else args[0]
  }

  function RequestOf(config: Config, c: Client, args: seq<Value>, json: Json): (r: Request)
    ensures r.url == Url(config, c) && r.httpMethod == "POST"
    ensures r.body == json(FirstArgument(args))
  {
    Request(Url(config, c), "POST", json(FirstArgument(args)), "application/json", "no-cache", "include")
  }

  /** How `fetch(...).then((res) => res.json())` settled: the parsed body, or the rejection
      (a network failure or unparsable JSON). */
  datatype Completion = Parsed(v: Value) | Failed(error: Value)

  /** The value a call resolves to: `.catch((err) => err)` turns a rejection into a result. */
  function Settle(c: Completion): Value {
    match c
    case Parsed(v) => v
    case Failed(e) => e
  }

  /** Calling the client at `c` with `args`, where `fetch` stands for the network. */
  function Call(config: Config, c: Client, args: seq<Value>, json: Json, fetch: Request -> Completion): Value {
    Settle(fetch(RequestOf(config, c, args, json)))
  }

  /** No separator is put between `baseUrl` and the path: `baseUrl` "http://h/api" and the
      path `["users", "get"]` give "http://h/apiusers/get". */
  lemma NoSeparatorAfterBase(base: string, segments: seq<string>)
    requires |segments| >= 1
    ensures Url(Config(Some(base)), Client(segments)) == base + segments[0] +
              (if |segments| == 1 then "" else "/" + Join(segments[1..], "/"))
  {
  }

  /** Only the first argument is sent: the rest never reach the request. */
  lemma OnlyFirstArgumentSent(config: Config, c: Client, first: Value, rest: seq<Value>, json: Json)
    ensures RequestOf(config, c, [first] + rest, json) == RequestOf(config, c, [first], json)
    ensures RequestOf(config, c, [], json) == RequestOf(config, c, [Undefined], json)
  {
  }

  /** A failed fetch or parse does not reject: the caller receives the error itself. */
  lemma FailureResolvesToError(config: Config, c: Client, args: seq<Value>, json: Json,
                               fetch: Request -> Completion)
    ensures fetch(RequestOf(config, c, args, json)).Failed? ==>
              Call(config, c, args, json, fetch) == fetch(RequestOf(config, c, args, json)).error
    ensures fetch(RequestOf(config, c, args, json)).Parsed? ==>
              Call(config, c, args, json, fetch) == fetch(RequestOf(config, c, args, json)).v
  {
  }
}
