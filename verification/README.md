# crow_ex2 core, modelled in Dafny

crow_ex2 is a small CRUD service for members and products: Crow HTTP routes in front
of two services, which sit in front of two MySQL tables reached through a connection
pool, configured from a YAML file. This project models the four pieces of sequential
logic in it and proves properties about them:

- **Connection pool** (`connection_pool.dfy`, module `ConnectionPool`). The class
  `MySQLConnectionPool` keeps the FIFO queue of idle connections
  (`availableConnections`), the count of connections created (`currentConnections`,
  capped by `maxConnections`) and a ghost set of connections handed out
  (`checkedOut`). Its methods are proved against pure transition functions on
  `PoolState` (`Acquire`, `TakeHead`, `Return`). Lemmas about those functions show:
  - the cap holds, idle and handed-out connections stay disjoint, and
    idle + handed out = created, for every allowed sequence of calls;
  - idle connections are served in queue order;
  - a returned connection is served before any new one is opened.

  Connections are named by their creation index, so a new connection is fresh by
  construction. The connector's success is a parameter. `getConnection` returns
  `WouldBlock` where the source would wait on its condition variable. A woken
  waiter continues with `ResumeWaiter`, which takes the head of the queue.
- **Member service** (`member_service.dfy`, module `Members`):
  - id validation and member validation, as loops proved against declarative
    predicates (`ValidId`, `ValidMember`);
  - the get/exists/add/update/delete guards over the member table, modelled as a
    map from id to document.

  A document's fields are the JSON text `dump()` yields, with its quotes. The name
  rule's Korean escape hatch applies to the whole name: one byte in 0xEA..0xED
  anywhere lets every other byte through. The model keeps this as written, and
  `KoreanHatchAdmitsAnyByte` states it.
- **Product service** (`product_service.dfy`, module `Products`): the same shape.
  Its `validateId` repeats the member service's code, and so does its model.
  `ValidateProduct` follows the source's `substr(1, length - 2)` on a `size_t`. Its
  contract gives the accepted lengths of the quoted name and category, and the
  accepted price range.
- **Configuration** (`config.dfy`, module `AppConfig`):
  - the class `Config`, with `SetDefaults` and `LoadFromYaml` assigning fields one
    at a time;
  - `Load`, a pure account of the YAML override, with lemmas that it overwrites
    exactly the keys present, is idempotent and rolls nothing back;
  - `ValidConfig`, the `validate` predicate.

  A key whose `as<T>()` conversion throws ends the load early. The keys already
  applied stay applied, and the load returns false.
- Shared: `ctypes.dfy` (`byte`, `int32`, `size_t` subtraction, `std::string::substr`)
  and `text.dfy` (ASCII byte classes and the id rule both services use).

`src/main.cpp:40` calls `connectionPool->initialize()`, but
`src/repository/mysql_connection_pool.h` does not define it, and nothing sets or reads
`connection_timeout`, `max_retries` or `retry_delay` (`src/config/config.h:12-14`). The
model has no such operation.

## Model

| member | source | states |
|---|---|---|
| `Text.ValidIdHasNoQuote` | src/service/member_service.cpp:130-135 | an accepted id contains no quote, double quote, backslash or space, so it cannot break out of the SQL string literal the repositories paste it into |
| `Members.Unquote` | src/service/member_service.cpp:84 | on a dump longer than two bytes, the slice equals `substr(1, length - 2)` with `size_t` arithmetic, and the dump is its result with one byte added on each side |
| `Members.UnquoteQuoted` | src/service/member_service.cpp:84 | stripping the quotes of a quoted text gives the text back |
| `Members.MemberService.constructor` | src/service/member_service.cpp:3-5 | the service works on the given member table |
| `Members.MemberService.ValidateId` | src/service/member_service.cpp:124-138 | true iff the id has 1..50 bytes, each an ASCII letter or digit, `-` or `_` |
| `Members.MemberService.ValidateMember` | src/service/member_service.cpp:73-122 | true iff the quoted name's text has 1..100 bytes that are all plain (letter, digit, space, `-`, `_`) or include a byte in 0xEA..0xED, and the quoted gender is `male` or `female` |
| `Members.KoreanHatchAdmitsAnyByte` | src/service/member_service.cpp:92-106 | one Korean lead byte anywhere in a name of acceptable length makes every other byte acceptable |
| `Members.ForeignByteRejects` | src/service/member_service.cpp:92-106 | without a Korean lead byte, one byte outside the plain set rejects the member |
| `Members.GenderDumpLength` | src/service/member_service.cpp:110-119 | an accepted gender dump is 6 bytes around `male` or 8 bytes around `female` |
| `Members.MemberService.GetMemberById` | src/service/member_service.cpp:11-16 | an invalid id gives the empty value without a lookup; a valid id gives the stored member or the empty value |
| `Members.MemberService.MemberExists` | src/service/member_service.cpp:18-23 | true iff the id is valid and present |
| `Members.MemberService.AddMember` | src/service/member_service.cpp:25-39 | succeeds iff id and member are valid and the id is absent; then exactly that entry is added, otherwise nothing changes; a table of valid rows stays valid |
| `Members.MemberService.UpdateMember` | src/service/member_service.cpp:41-55 | succeeds iff id and member are valid and the id is present; then only that entry changes and the key set is unchanged |
| `Members.MemberService.DeleteMember` | src/service/member_service.cpp:57-71 | succeeds iff the id is valid and present; then exactly that id is removed, otherwise nothing changes |
| `Products.StripQuotes` | src/service/product_service.cpp:81 | `substr(1, length - 2)` with `size_t` wrap-around: the inner text for dumps of two or more bytes, empty for a one-byte dump |
| `Products.ValidateProduct` | src/service/product_service.cpp:73-101 | true iff the name dump has 3..102 bytes (1..100 of text), the price is 0..100000000 and the category dump has 3..52 bytes (1..50 of text) |
| `Products.NameContentUnchecked` | src/service/product_service.cpp:79-84 | only the length of a product name matters, never its bytes |
| `Products.ProductService.constructor` | src/service/product_service.cpp:3-5 | the service works on the given product table |
| `Products.ProductService.ValidateId` | src/service/product_service.cpp:103-117 | true iff the id has 1..50 bytes, each an ASCII letter or digit, `-` or `_` |
| `Products.ProductService.GetProductById` | src/service/product_service.cpp:11-16 | an invalid id gives the empty value without a lookup; a valid id gives the stored product or the empty value |
| `Products.ProductService.ProductExists` | src/service/product_service.cpp:18-23 | true iff the id is valid and present |
| `Products.ProductService.AddProduct` | src/service/product_service.cpp:25-39 | succeeds iff id and product are valid and the id is absent; then exactly that entry is added, otherwise nothing changes |
| `Products.ProductService.UpdateProduct` | src/service/product_service.cpp:41-55 | succeeds iff id and product are valid and the id is present; then only that entry changes |
| `Products.ProductService.DeleteProduct` | src/service/product_service.cpp:57-71 | succeeds iff the id is valid and present; then exactly that id is removed, otherwise nothing changes |
| `AppConfig.ValidConfig` | src/config/config.cpp:65-89 | the checks of `validate()` in source order; valid iff db host, username and database are non-empty, db port and server port are in 1..65535 and threads is at least 1; the password and server host are unchecked |
| `AppConfig.UncheckedFields` | src/config/config.cpp:67-70 | the password and the server host never affect validity |
| `AppConfig.DefaultsAreValid` | src/config/config.cpp:51-89 | the defaults pass validation |
| `AppConfig.LoadDatabase` | src/config/config.cpp:27-34 | the database section throws iff one of its keys does not convert; the keys before the first unconvertible one are applied and the later fields keep their values; without a throw each field takes the key's value if present and keeps its own if not |
| `AppConfig.LoadServer` | src/config/config.cpp:37-42 | the same for the server section: the keys before the first unconvertible one are applied, the later fields keep their values |
| `AppConfig.Load` | src/config/config.cpp:27-48 | the load throws iff some key in the document does not convert |
| `AppConfig.LoadOverridesPresentKeys` | src/config/config.cpp:27-44 | without conversion failures, exactly the keys present are overwritten and every other field keeps its value |
| `AppConfig.LoadIsIdempotent` | src/config/config.cpp:27-44 | loading the same document twice leaves what loading it once leaves |
| `AppConfig.EmptyDocumentChangesNothing` | src/config/config.cpp:27-44 | a document without either section changes nothing and does not throw |
| `AppConfig.ThrowKeepsEarlierKeys` | src/config/config.cpp:27-48 | a conversion failure in the server section keeps the database keys already applied |
| `AppConfig.Config.constructor` | src/config/config.cpp:5-7 | a new configuration holds the defaults |
| `AppConfig.Config.FromFile` | src/config/config.cpp:9-12 | the defaults, overridden by the file's document when it could be read and parsed |
| `AppConfig.Config.SetDefaults` | src/config/config.cpp:51-63 | db `127.0.0.1:3306`, user `root`, password `test`, database `crow_ex1`; server `0.0.0.0:8080` with 10 threads; and this passes validation |
| `AppConfig.Config.LoadFromFile` | src/config/config.cpp:14-22 | an unreadable or unparsable file gives false and changes nothing; otherwise as `LoadFromYaml` |
| `AppConfig.Config.LoadFromYaml` | src/config/config.cpp:24-49 | the new settings are `Load` of the old ones; the result is false if a conversion threw, else `validate()` of the new settings, which are kept even when invalid |
| `AppConfig.Config.ApplyDatabaseSection` | src/config/config.cpp:27-34 | the database block's effect is `LoadDatabase`, and the server settings are untouched |
| `AppConfig.Config.ApplyServerSection` | src/config/config.cpp:36-42 | the server block's effect is `LoadServer`, and the database settings are untouched |
| `ConnectionPool.NewPool` | src/repository/mysql_connection_pool.h:21-23 | a new pool satisfies the invariant for any cap |
| `ConnectionPool.TakeHead` | src/repository/mysql_connection_pool.h:38-44 | taking the queue head keeps the invariant, hands out a connection nobody else holds, removes exactly one idle entry and creates nothing |
| `ConnectionPool.TakeHeadKeepsInv` | src/repository/mysql_connection_pool.h:38-40 | popping the head of the idle queue into the handed-out set keeps the invariant, and the popped connection does not remain in the queue |
| `ConnectionPool.WokenWaiterTakesHead` | src/repository/mysql_connection_pool.h:58-61 | a woken waiter receives the head of the queue, the rest of the queue stays in order, and nothing is created |
| `ConnectionPool.Acquire` | src/repository/mysql_connection_pool.h:34-65 | keeps the invariant; a handed-out connection was not already held and is no longer idle; the caller waits iff nothing is idle and either the cap is reached or the connector failed, and a waiting call changes nothing; a connection is created only when nothing was idle |
| `ConnectionPool.Return` | src/repository/mysql_connection_pool.h:86-90 | the connection goes to the back of the queue and the created count is unchanged |
| `ConnectionPool.ReturnKeepsInv` | src/repository/mysql_connection_pool.h:86-90 | returning a handed-out connection keeps the invariant |
| `ConnectionPool.RunKeepsInv` | src/repository/mysql_connection_pool.h:34-90 | every allowed sequence of get, resume and return calls keeps the cap, the disjointness and idle + handed out = created |
| `ConnectionPool.Capacity` | src/repository/mysql_connection_pool.h:47-54 | starting from a new pool, never more than the cap exist or are handed out |
| `ConnectionPool.GetsServeIdleInOrder` | src/repository/mysql_connection_pool.h:38-44 | while connections are idle, calls receive them in queue order and nothing is created |
| `ConnectionPool.ReturnedServedAfterOlderIdle` | src/repository/mysql_connection_pool.h:86-90 | a returned connection is served right after the connections idle before it, before any new one is created |
| `ConnectionPool.SaturatedPoolOfOne` | src/repository/mysql_connection_pool.h:47-64 | with a cap of one, a second caller waits, and after the return the woken waiter receives the first connection |
| `ConnectionPool.ConnectorFailureWaits` | src/repository/mysql_connection_pool.h:47-58 | a connector failure below the cap is not reported or counted: the caller waits as if the pool were saturated |
| `ConnectionPool.MySQLConnectionPool.constructor` | src/repository/mysql_connection_pool.h:21-23 | an empty pool: nothing idle, nothing created, nothing handed out |
| `ConnectionPool.MySQLConnectionPool.GetConnection` | src/repository/mysql_connection_pool.h:34-65 | the state and result are those of `Acquire`, and the invariant holds |
| `ConnectionPool.MySQLConnectionPool.ResumeWaiter` | src/repository/mysql_connection_pool.h:58-64 | a woken waiter takes the head of the non-empty queue, as `TakeHead` |
| `ConnectionPool.MySQLConnectionPool.ReturnConnection` | src/repository/mysql_connection_pool.h:86-90 | the state becomes `Return` of the old one, and the invariant holds |
| `ConnectionPool.MySQLConnectionPool.Close` | src/repository/mysql_connection_pool.h:25-32 | the queue ends empty; each connection that was idle is closed once, in queue order; handed-out connections are not closed and the created count is left as it was |

## Left out

- Pool `initialize()` with retries and a delay: it is called at `src/main.cpp:40` but
  defined in none of the source files. `connection_timeout`, `max_retries` and
  `retry_delay` of `DatabaseConfig` are never set or read, so `DatabaseConfig` omits
  them.
- Pool concurrency: the mutex, the condition variable and `notify_one`. Each method
  is one critical section. A blocked `getConnection` is the `WouldBlock` result
  followed later by `ResumeWaiter`; which waiter is woken is not modelled.
- `mysql_init`, `mysql_real_connect`, `mysql_close`: foreign C calls. A connection
  attempt is the boolean `connectorOk`. Closing a failed attempt is not tracked.
- The `shared_ptr` deleter: callers call `ReturnConnection` themselves.
  `MySQLConnectionPool.ReturnConnection` requires a connection that is handed out,
  which is the only thing the deleter ever passes.
- The repositories (`src/repository/mysql_member_repository.cpp`,
  `src/repository/mysql_product_repository.cpp`): SQL strings and `mysql_query`,
  which is foreign I/O. The services see each table as a map. A query that fails in
  the database is not modelled, so an accepted add, update or delete always takes
  effect.
- `getAllMembers` and `getAllProducts`: plain pass-through to the repository, whose
  row order comes from the database.
- JSON details: `crow::json::wvalue::dump()` escaping and `std::stoi` on the price's
  dump, including its exceptions on non-numeric or out-of-range text. Fields are
  given as dumped text, and the price as the `int` that `std::stoi` returns.
- `std::isalnum` locale dependence: the "C" locale is assumed, so only ASCII letters
  and digits count.
- `Products.ValidateProduct`: requires dumps shorter than 2^64 bytes, the largest a
  `std::string` can be.
- `YAML::LoadFile` and file I/O: `LoadFromFile` and `Config.FromFile` take the parsed
  document, or `None` when reading or parsing threw. A section present but not a
  map is not distinguished from a present map.
- Routers, access-log middleware, benchmark timing, `main` and the tests: HTTP
  plumbing, clocks and scaffolding.
