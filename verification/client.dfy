/**
  The `Client` module object: a registry of named configurations, keyed by
  Symbol, and the client API that looks a configuration up by name and
  delegates to a fresh `Client::HTTP` bound to it.

  The registry holds `Config` values. Ruby hands the block of `configure`
  the stored object to mutate in place; here the block is a function from
  the stored configuration to its replacement, and the registry stores the
  replacement.
 */
module Client {
  import opened Wrappers
  import opened Json
  import opened Errors
  import opened Settings
  import opened HttpClient

  const DefaultName := "default"

  /** `name.inspect` for a Symbol or a String name. */
  function Inspect(name: Key): string {
    match name
    case Sym(n) => ":" + n
    case Str(n) => "\"" + n + "\""
  }

  /** `@clients[name] ||= Config.new`: the stored configuration, or a new one. */
  function EntryOrNew(clients: map<string, Config>, name: string, env: map<string, string>): Config {
    if name in clients then clients[name] else NewConfig(env)
  }

  /** The registry after `configure(name)` with a block that turns the configuration into `update(c)`. */
  function Configured(clients: map<string, Config>, name: Key, update: Config -> Config, env: map<string, string>): map<string, Config> {
    clients[ToSym(name).name := update(EntryOrNew(clients, ToSym(name).name, env))]
  }

  /** `self[name]`: the named configuration, or RuntimeError when there is none. */
  function Find(clients: map<string, Config>, name: Key): (r: Result<Config>)
    ensures r.Ok? <==> name.name in clients
    ensures r.Ok? ==> r.value == clients[name.name]
    ensures r.Err? ==> r.error == Exception(RuntimeError, JStr("No client configured for " + Inspect(name)))
  {
    if ToSym(name).name in clients then Ok(clients[ToSym(name).name])
    else Err(Exception(RuntimeError, JStr("No client configured for " + Inspect(name))))
  }

  /** The error the client API raises for a name that has no configuration. */
  function NotConfigured(name: Key): Exception {
    Exception(RuntimeError, JStr("Client not configured: " + Inspect(name)))
  }

  /** A String name and the Symbol of the same name address the same entry. */
  lemma NamesAreSymbols(clients: map<string, Config>, n: string, update: Config -> Config, env: map<string, string>)
    ensures Configured(clients, Str(n), update, env) == Configured(clients, Sym(n), update, env)
    ensures Find(clients, Str(n)).Ok? <==> Find(clients, Sym(n)).Ok?
    ensures Find(clients, Str(n)).Ok? ==> Find(clients, Str(n)) == Find(clients, Sym(n))
  {
  }

  /**
    `configure` leaves every other entry as it was, makes the named entry
    present, and stores what the block made of the previous entry, or of a
    fresh `Config.new` when there was none.
   */
  lemma ConfigureTouchesOneEntry(clients: map<string, Config>, name: Key, update: Config -> Config, env: map<string, string>)
    ensures var after := Configured(clients, name, update, env);
            && after.Keys == clients.Keys + {name.name}
            && (forall n | n in clients && n != name.name :: after[n] == clients[n])
            && Find(after, name) == Ok(update(EntryOrNew(clients, name.name, env)))
  {
  }

  /** A block that keeps the configuration only creates the default entry when it is missing. */
  lemma ConfigureWithIdentity(clients: map<string, Config>, name: Key, env: map<string, string>)
    ensures name.name in clients ==> Configured(clients, name, c => c, env) == clients
    ensures name.name !in clients ==> Configured(clients, name, c => c, env) == clients[name.name := NewConfig(env)]
  {
  }

  /** Looking a name up after configuring another one gives the same answer as before. */
  lemma FindOtherAfterConfigure(clients: map<string, Config>, name: Key, other: Key, update: Config -> Config, env: map<string, string>)
    requires other.name != name.name
    ensures Find(Configured(clients, name, update, env), other) == Find(clients, other)
  {
  }

  /**
    The module-level registry, `@clients`. `Config.new` reads the process
    environment each time it runs, so the operations that may create an
    entry take the environment of the moment as a parameter.
   */
  class Registry {
    var clients: map<string, Config>

    constructor()
      ensures clients == map[]
    {
      clients := map[];
    }

    /** `config`: the default configuration, created on first use. */
    method DefaultConfig(env: map<string, string>) returns (c: Config)
      modifies this
      ensures c == EntryOrNew(old(clients), DefaultName, env)
      ensures clients == old(clients)[DefaultName := c]
    {
      if DefaultName !in clients {
        clients := clients[DefaultName := NewConfig(env)];
      }
      c := clients[DefaultName];
    }

    /** `configure(name) { |c| ... }`: create the entry when missing, then let the block change it. */
    method Configure(env: map<string, string>, name: Key := Sym(DefaultName), update: Config -> Config)
      modifies this
      ensures clients == Configured(old(clients), name, update, env)
    {
      var key := ToSym(name).name;
      if key !in clients {
        clients := clients[key := NewConfig(env)];
      }
      clients := clients[key := update(clients[key])];
    }

    /** `self[name]`: look the name up without creating it; a name that is not there raises RuntimeError. */
    function Get(name: Key := Sym(DefaultName)): (r: Result<Config>)
      reads this
      ensures r.Ok? <==> name.name in clients
      ensures r.Ok? ==> r.value == clients[name.name]
      ensures r.Err? ==> r.error == Exception(RuntimeError, JStr("No client configured for " + Inspect(name)))
    {
      Find(clients, name)
    }

    /** `all`: every configured client by name; exactly the names `self[]` finds, each with what `self[]` returns. */
    function All(): (r: map<string, Config>)
      reads this
      ensures forall n :: n in r <==> Get(Sym(n)).Ok?
      ensures forall n | n in r :: Get(Sym(n)) == Ok(r[n]) && Get(Str(n)) == Ok(r[n])
    {
      clients
    }

    /** The private `http(client_name)`: a new HTTP client bound to the named configuration. */
    method HttpFor(name: Key) returns (r: Result<Http>)
      ensures r.Ok? <==> name.name in clients
      ensures r.Ok? ==> fresh(r.value) && r.value.config == clients[name.name]
      ensures r.Err? ==> r.error == NotConfigured(name)
    {
      var key := ToSym(name).name;
      if key !in clients {
        return Err(NotConfigured(name));
      }
      var http := new Http(clients[key]);
      r := Ok(http);
    }

    /** `execute(client_name, ...)`: the defaults of the keywords are passed on to `Client::HTTP#execute` unchanged. */
    method Execute(codec: Codec, now: int, send: HttpRequest -> Outcome, clientName: Key := Sym(DefaultName),
                   nameonly operation: string, nameonly callerId: string, nameonly params: Json := JObj([]),
                   nameonly async: bool := false, nameonly idemKey: Option<string> := None,
                   nameonly timeouts: Option<Timeouts> := None)
      returns (r: Result<Json>, req: Option<HttpRequest>)
      ensures clientName.name !in clients ==> r == Err(NotConfigured(clientName)) && req == None
      ensures clientName.name in clients ==>
                req == Some(ExecuteRequest(clients[clientName.name], codec, operation, callerId, params, async, idemKey, timeouts, now))
                && r == ExecuteResult(send(req.value), codec.parse)
    {
      var found := HttpFor(clientName);
      if found.Err? {
        return Err(found.error), None;
      }
      var sent;
      r, sent := found.value.Execute(codec, now, send, operation := operation, callerId := callerId, params := params,
                                     async := async, idemKey := idemKey, timeouts := timeouts);
      req := Some(sent);
    }

    /** `fetch_tasks(client_name, caller_id:)` */
    method FetchTasks(codec: Codec, now: int, send: HttpRequest -> Outcome, clientName: Key := Sym(DefaultName),
                      nameonly callerId: string)
      returns (r: Result<seq<Json>>, req: Option<HttpRequest>)
      ensures clientName.name !in clients ==> r == Err(NotConfigured(clientName)) && req == None
      ensures clientName.name in clients ==>
                req == Some(FetchTasksRequest(clients[clientName.name], codec, callerId, now))
                && r == FetchTasksResult(send(req.value), codec.parse)
    {
      var found := HttpFor(clientName);
      if found.Err? {
        return Err(found.error), None;
      }
      var sent;
      r, sent := found.value.FetchTasks(codec, now, send, callerId := callerId);
      req := Some(sent);
    }

    /** `fetch_task(client_name, task_name:, caller_id:)` */
    method FetchTask(codec: Codec, now: int, send: HttpRequest -> Outcome, clientName: Key := Sym(DefaultName),
                     nameonly taskName: string, nameonly callerId: string)
      returns (r: Result<Option<Json>>, req: Option<HttpRequest>)
      ensures clientName.name !in clients ==> r == Err(NotConfigured(clientName)) && req == None
      ensures clientName.name in clients && IsBlank(taskName) ==> r == Ok(None) && req == None
      ensures clientName.name in clients && !IsBlank(taskName) ==>
                req == Some(FetchTaskRequest(clients[clientName.name], codec, taskName, callerId, now))
                && r == FetchTaskResult(send(req.value), codec.parse)
    {
      var found := HttpFor(clientName);
      if found.Err? {
        return Err(found.error), None;
      }
      r, req := found.value.FetchTask(codec, now, send, taskName := taskName, callerId := callerId);
    }

    /** `wait(client_name, idem_key:, caller_id:)` */
    method Wait(codec: Codec, now: int, send: HttpRequest -> Outcome, clientName: Key := Sym(DefaultName),
                nameonly idemKey: string, nameonly callerId: string)
      returns (r: Result<Option<Json>>, req: Option<HttpRequest>)
      ensures clientName.name !in clients ==> r == Err(NotConfigured(clientName)) && req == None
      ensures clientName.name in clients && IsBlank(idemKey) ==> r == Ok(None) && req == None
      ensures clientName.name in clients && !IsBlank(idemKey) ==>
                req == Some(WaitRequest(clients[clientName.name], codec, idemKey, callerId, now))
                && r == WaitResult(send(req.value), codec.parse)
    {
      var found := HttpFor(clientName);
      if found.Err? {
        return Err(found.error), None;
      }
      r, req := found.value.Wait(codec, now, send, idemKey := idemKey, callerId := callerId);
    }
  }
}
