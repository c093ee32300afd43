/** `Config`: the database and server settings, their defaults, their override from a
    parsed YAML document, and their validation. */
module AppConfig {
  import opened CTypes

  datatype DatabaseConfig = DatabaseConfig(host: string, port: int32, username: string, password: string, database: string)

  datatype ServerConfig = ServerConfig(host: string, port: int32, threads: int32)

  const DEFAULT_DATABASE := DatabaseConfig("127.0.0.1", 3306, "root", "test", "crow_ex1")
  const DEFAULT_SERVER := ServerConfig("0.0.0.0", 8080, 10)

  const MAX_PORT: int32 := 65535

  /** One key of the parsed document: missing, present with a value `as<T>()` can
      convert, or present with a value whose conversion throws. */
  datatype Field<T> = Absent | Present(value: T) | Unconvertible

  datatype DatabaseNode = DatabaseNode(
    host: Field<string>, port: Field<int32>, username: Field<string>,
    password: Field<string>, database: Field<string>)

  datatype ServerNode = ServerNode(host: Field<string>, port: Field<int32>, threads: Field<int32>)

  /** The parsed YAML document: its `database` and `server` sections, each possibly missing. */
  datatype YamlNode = YamlNode(database: Option<DatabaseNode>, server: Option<ServerNode>)

  /** Settings after a load, and whether a conversion threw part-way through. */
  datatype Loaded = Loaded(db: DatabaseConfig, server: ServerConfig, threw: bool)

  /** The value a key leaves behind when its conversion does not throw. */
  function Merge<T>(f: Field<T>, current: T): T {
    if f.Present? then f.value else current
  }

  /** `validate`: the checks in the order of the source; the password and the
      server host are never looked at. Each of the seven checked fields alone can
      make a configuration invalid, and passing all of them suffices. */
  predicate ValidConfig(db: DatabaseConfig, server: ServerConfig)
    ensures ValidConfig(db, server) <==>
      && db.host != "" && db.username != "" && db.database != ""
      && 1 <= db.port <= MAX_PORT
      && 1 <= server.port <= MAX_PORT
      && server.threads >= 1
  {
    if db.host == "" || db.username == "" || db.database == "" then false
    else if db.port <= 0 || db.port > MAX_PORT then false
    else if server.port <= 0 || server.port > MAX_PORT then false
    else if server.threads <= 0 then false
    else true
  }

  /** The password and the server host never decide validity. */
  lemma UncheckedFields(db: DatabaseConfig, server: ServerConfig, password: string, host: string)
    ensures ValidConfig(db, server) == ValidConfig(db.(password := password), server.(host := host))
  {
  }

  /** The built-in defaults pass validation. */
  lemma DefaultsAreValid()
    ensures ValidConfig(DEFAULT_DATABASE, DEFAULT_SERVER)
  {
  }

  /** The `database` section of `loadFromYaml`: keys in source order; the first
      conversion that throws ends the load with the earlier keys already applied. */
  function LoadDatabase(db: DatabaseConfig, n: DatabaseNode): (r: (DatabaseConfig, bool))
    ensures !r.1 <==> DatabaseConverts(n)
    // a throw at a key keeps the keys before it and leaves the rest as they were
    ensures n.host.Unconvertible? ==> r.0 == db
    ensures !n.host.Unconvertible? && n.port.Unconvertible? ==>
      r.0 == db.(host := Merge(n.host, db.host))
    ensures !n.host.Unconvertible? && !n.port.Unconvertible? && n.username.Unconvertible? ==>
      r.0 == db.(host := Merge(n.host, db.host), port := Merge(n.port, db.port))
    ensures !n.host.Unconvertible? && !n.port.Unconvertible? && !n.username.Unconvertible?
            && n.password.Unconvertible? ==>
      r.0 == db.(host := Merge(n.host, db.host), port := Merge(n.port, db.port),
                 username := Merge(n.username, db.username))
    ensures !n.host.Unconvertible? && !n.port.Unconvertible? && !n.username.Unconvertible?
            && !n.password.Unconvertible? && n.database.Unconvertible? ==>
      r.0 == db.(host := Merge(n.host, db.host), port := Merge(n.port, db.port),
                 username := Merge(n.username, db.username), password := Merge(n.password, db.password))
    ensures !r.1 ==> r.0 == DatabaseConfig(Merge(n.host, db.host), Merge(n.port, db.port),
                                           Merge(n.username, db.username),
                                           Merge(n.password, db.password),
                                           Merge(n.database, db.database))
  {
    if n.host.Unconvertible? then (db, true) else
    var db := db.(host := Merge(n.host, db.host));
    if n.port.Unconvertible? then (db, true) else
    var db := db.(port := Merge(n.port, db.port));
    if n.username.Unconvertible? then (db, true) else
    var db := db.(username := Merge(n.username, db.username));
    if n.password.Unconvertible? then (db, true) else
    var db := db.(password := Merge(n.password, db.password));
    if n.database.Unconvertible? then (db, true) else
    var db := db.(database := Merge(n.database, db.database));
    (db, false)
  }

  /** The `server` section of `loadFromYaml`, in the same fashion. */
  function LoadServer(server: ServerConfig, n: ServerNode): (r: (ServerConfig, bool))
    ensures !r.1 <==> ServerConverts(n)
    // a throw at a key keeps the keys before it and leaves the rest as they were
    ensures n.host.Unconvertible? ==> r.0 == server
    ensures !n.host.Unconvertible? && n.port.Unconvertible? ==>
      r.0 == server.(host := Merge(n.host, server.host))
    ensures !n.host.Unconvertible? && !n.port.Unconvertible? && n.threads.Unconvertible? ==>
      r.0 == server.(host := Merge(n.host, server.host), port := Merge(n.port, server.port))
    ensures !r.1 ==> r.0 == ServerConfig(Merge(n.host, server.host), Merge(n.port, server.port),
                                         Merge(n.threads, server.threads))
  {
    if n.host.Unconvertible? then (server, true) else
    var server := server.(host := Merge(n.host, server.host));
    if n.port.Unconvertible? then (server, true) else
    var server := server.(port := Merge(n.port, server.port));
    if n.threads.Unconvertible? then (server, true) else
    var server := server.(threads := Merge(n.threads, server.threads));
    (server, false)
  }

  /** The settings `loadFromYaml` leaves behind: the database section first, then
      the server section, unless the first one threw. */
  function Load(db: DatabaseConfig, server: ServerConfig, node: YamlNode): (r: Loaded)
    ensures r.threw <==> !Convertible(node)
  {
    var (db', threw) := if node.database.Some? then LoadDatabase(db, node.database.value) else (db, false);
    if threw then Loaded(db', server, true)
    else
      var (server', threw') := if node.server.Some? then LoadServer(server, node.server.value) else (server, false);
      Loaded(db', server', threw')
  }

  /** No key of the `database` section fails to convert. */
  predicate DatabaseConverts(n: DatabaseNode) {
    !n.host.Unconvertible? && !n.port.Unconvertible? && !n.username.Unconvertible?
    && !n.password.Unconvertible? && !n.database.Unconvertible?
  }

  /** No key of the `server` section fails to convert. */
  predicate ServerConverts(n: ServerNode) {
    !n.host.Unconvertible? && !n.port.Unconvertible? && !n.threads.Unconvertible?
  }

  /** No key in the document fails to convert. */
  predicate Convertible(node: YamlNode) {
    && (node.database.Some? ==> DatabaseConverts(node.database.value))
    && (node.server.Some? ==> ServerConverts(node.server.value))
  }

  /** Without conversion failures, a load overwrites exactly the keys present in the
      document and leaves every other field as it was. */
  lemma LoadOverridesPresentKeys(db: DatabaseConfig, server: ServerConfig, node: YamlNode)
    requires Convertible(node)
    ensures !Load(db, server, node).threw
    ensures var r := Load(db, server, node);
      && r.db.host == (if node.database.Some? then Merge(node.database.value.host, db.host) else db.host)
      && r.db.port == (if node.database.Some? then Merge(node.database.value.port, db.port) else db.port)
      && r.db.username == (if node.database.Some? then Merge(node.database.value.username, db.username) else db.username)
      && r.db.password == (if node.database.Some? then Merge(node.database.value.password, db.password) else db.password)
      && r.db.database == (if node.database.Some? then Merge(node.database.value.database, db.database) else db.database)
      && r.server.host == (if node.server.Some? then Merge(node.server.value.host, server.host) else server.host)
      && r.server.port == (if node.server.Some? then Merge(node.server.value.port, server.port) else server.port)
      && r.server.threads == (if node.server.Some? then Merge(node.server.value.threads, server.threads) else server.threads)
  {
  }

  /** Loading the same document twice leaves what loading it once leaves. */
  lemma LoadIsIdempotent(db: DatabaseConfig, server: ServerConfig, node: YamlNode)
    ensures var once := Load(db, server, node);
            var twice := Load(once.db, once.server, node);
            twice == once
  {
  }

  /** A document with both sections missing changes nothing. */
  lemma EmptyDocumentChangesNothing(db: DatabaseConfig, server: ServerConfig)
    ensures Load(db, server, YamlNode(None, None)) == Loaded(db, server, false)
  {
  }

  /** A conversion failure in the server section does not undo the database section:
      its keys stay applied. */
  lemma ThrowKeepsEarlierKeys(db: DatabaseConfig, server: ServerConfig, dn: DatabaseNode, sn: ServerNode)
    requires !LoadDatabase(db, dn).1 && LoadServer(server, sn).1
    ensures var r := Load(db, server, YamlNode(Some(dn), Some(sn)));
            r.threw && r.db == LoadDatabase(db, dn).0
  {
  }

  /** The `Config` object: the two setting records the rest of the program reads. */
  class Config {
    var dbConfig: DatabaseConfig
    var serverConfig: ServerConfig

    /** `Config()`: the defaults. */
    constructor ()
      ensures dbConfig == DEFAULT_DATABASE && serverConfig == DEFAULT_SERVER
    {
      new;
      SetDefaults();
    }

    /** `Config(configFile)`: the defaults, then the file; `file` is the parsed document,
        or `None` when reading or parsing it threw. The load's verdict is dropped. */
    constructor FromFile(file: Option<YamlNode>)
      ensures file.None? ==> dbConfig == DEFAULT_DATABASE && serverConfig == DEFAULT_SERVER
      ensures file.Some? ==> var r := Load(DEFAULT_DATABASE, DEFAULT_SERVER, file.value);
                             dbConfig == r.db && serverConfig == r.server
    {
      new;
      SetDefaults();
      var _ := LoadFromFile(file);
    }

    /** `setDefaults`: assigns every field its built-in value, one at a time. */
    method SetDefaults()
      modifies this
      ensures dbConfig == DEFAULT_DATABASE && serverConfig == DEFAULT_SERVER
      ensures ValidConfig(dbConfig, serverConfig)
    {
      dbConfig := dbConfig.(host := "127.0.0.1");
      dbConfig := dbConfig.(port := 3306);
      dbConfig := dbConfig.(username := "root");
      dbConfig := dbConfig.(password := "test");
      dbConfig := dbConfig.(database := "crow_ex1");
      serverConfig := serverConfig.(host := "0.0.0.0");
      serverConfig := serverConfig.(port := 8080);
      serverConfig := serverConfig.(threads := 10);
    }

    /** `loadFromFile`: a document that could not be read or parsed gives false and
        changes nothing. */
    method LoadFromFile(file: Option<YamlNode>) returns (ok: bool)
      modifies this
      ensures file.None? ==> !ok && dbConfig == old(dbConfig) && serverConfig == old(serverConfig)
      ensures file.Some? ==> var r := Load(old(dbConfig), old(serverConfig), file.value);
                             && dbConfig == r.db && serverConfig == r.server
                             && ok == (!r.threw && ValidConfig(dbConfig, serverConfig))
    {
      if file.None? {
        return false;
      }
      ok := LoadFromYaml(file.value);
    }

    /** `loadFromYaml`: overrides the present keys in source order; a conversion that
        throws ends the load with false and keeps what was already assigned;
        otherwise the verdict is `validate()` of the new settings, and invalid
        settings are kept as well. */
    method LoadFromYaml(node: YamlNode) returns (ok: bool)
      modifies this
      ensures var r := Load(old(dbConfig), old(serverConfig), node);
              && dbConfig == r.db && serverConfig == r.server
              && ok == (!r.threw && ValidConfig(dbConfig, serverConfig))
    {
      if node.database.Some? {
        var threw := ApplyDatabaseSection(node.database.value);
        if threw { return false; }
      }
      if node.server.Some? {
        var threw := ApplyServerSection(node.server.value);
        if threw { return false; }
      }
      ok := ValidConfig(dbConfig, serverConfig);
    }
  
    /** The `database` block of `loadFromYaml`; `threw` reports a conversion that threw. */
    method ApplyDatabaseSection(db: DatabaseNode) returns (threw: bool)
      modifies this
      ensures (dbConfig, threw) == LoadDatabase(old(dbConfig), db)
      ensures serverConfig == old(serverConfig)
    {
      if db.host.Unconvertible? { return true; }
      if db.host.Present? { dbConfig := dbConfig.(host := db.host.value); }
      if db.port.Unconvertible? { return true; }
      if db.port.Present? { dbConfig := dbConfig.(port := db.port.value); }
      if db.username.Unconvertible? { return true; }
      if db.username.Present? { dbConfig := dbConfig.(username := db.username.value); }
      if db.password.Unconvertible? { return true; }
      if db.password.Present? { dbConfig := dbConfig.(password := db.password.value); }
      if db.database.Unconvertible? { return true; }
      if db.database.Present? { dbConfig := dbConfig.(database := db.database.value); }
      return false;
    }

    /** The `server` block of `loadFromYaml`; `threw` reports a conversion that threw. */
    method ApplyServerSection(server: ServerNode) returns (threw: bool)
      modifies this
      ensures (serverConfig, threw) == LoadServer(old(serverConfig), server)
      ensures dbConfig == old(dbConfig)
    {
      if server.host.Unconvertible? { return true; }
      if server.host.Present? { serverConfig := serverConfig.(host := server.host.value); }
      if server.port.Unconvertible? { return true; }
      if server.port.Present? { serverConfig := serverConfig.(port := server.port.value); }
      if server.threads.Unconvertible? { return true; }
      if server.threads.Present? { serverConfig := serverConfig.(threads := server.threads.value); }
      return false;
    }
  }
}
