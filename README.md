# Design-pattern demos, modelled and verified in Dafny

This project models the deterministic logic of a catalogue of TypeScript
design-pattern demos and proves what each demo promises. It has one Dafny
module per source file, plus three shared modules: `Wrappers` (an `Option`
for JavaScript's `undefined`), `JsValues` (string dictionaries shared by
reference, and JSON bodies) and `JsSwitch` (how a JavaScript `switch`
falls through).

- **Order lifecycle** (`OrderLifecycle`, the centrepiece). An order is
  `Pending`, `Confirmed`, `Delivered` or `Cancelled`. Each stage's `next` and
  `cancel` are the total functions `Next` and `Cancel`, which return either the
  new stage or the fixed error message the stage object throws. The `Order`
  class reassigns its `state` field only when the transition succeeds.
  Otherwise it writes the message to its recorded console `output` and
  returns normally, as the source's `try`/`catch` does. The proofs cover the
  transition table, that delivered and cancelled orders are terminal under
  any sequence of calls, that the four status strings (with the source's
  spelling `PEDNING`) are distinct, and the script at the end of the file.
  Because the code logs the message and continues, a caller of `nextState` or
  `cancelOrder` cannot tell a rejected call from a successful one except by
  asking for the status; the model follows the code and keeps this.
- **Flyweight** (`Flyweight`). The factory interns vehicle types under the key
  `name_icon_color`. The model keeps the invariant that every entry sits under
  the key of its own fields. It proves that entries are never replaced, and
  that two different triples with the same joined key share the first object.
- **Proxy** (`Proxy`). A cache in front of a deterministic user lookup. Every
  answer equals the real service's, and a hit never consults the real service.
- **Composite** (`Composite`). Permission trees in which a group grants what
  some child grants. This is proved equal to membership in the set of leaf
  names, and `add` is proved monotone.
- **Chain of responsibility** (`ChainOfResponsibility`). The three checks
  (authentication, which fails with status 429; role; rate limit), the chain
  built by `setNext`, and proofs that the first failing check answers and that
  `null` means every check passed.
- **Observer** (`Observer`). Subscribe appends. Unsubscribe removes every
  occurrence and keeps the others in order. Notify calls each entry once, in
  order.
- **Command** (`Command`). The queue runs in insertion order, each command
  forwards its stored arguments, and the queue is empty afterwards.
- **Builder**, **Prototype**, **Singleton** (`Builder`, `Prototype`,
  `Singleton`). These model the aliasing of the header and parameter objects
  shared with built and cloned requests, the deep copy of a cloned body, and
  the lazily created single instance.
- **Factory method** and **Strategy** (`FactoryMethod`, `Strategy`). Both are
  a `switch` over a string, modelled with the same `JsSwitch` semantics. The
  factory's cases `return`, so exactly `'PayPal'` and `'Adyen'` select a
  processor. The strategy's cases only construct an object and fall through
  into the throwing `default`, so every payment type is rejected.

Where console output is the effect that matters, it is recorded: the order's
`output` holds the literal status strings and error messages, and elsewhere a
list of events (`calls`, `lines`) records which call happened with which
arguments. The console lines listed under "Left out" are not recorded at all.
The network does not occur in the modelled code; the one clock read, the
timestamp `AuditLogger.update` writes (behavioral/observer.ts:43), is not
modelled.

## Model

| member | source | states |
|---|---|---|
| `OrderLifecycle.Next` | behavioral/state.ts:17-69 | `next` succeeds exactly from the two non-terminal stages, and never stays put or returns to Pending |
| `OrderLifecycle.Cancel` | behavioral/state.ts:17-69 | `cancel` succeeds exactly from the two non-terminal stages, and always to Cancelled |
| `OrderLifecycle.TransitionTable` | behavioral/state.ts:17-65 | Pending→Confirmed→Delivered by `next`; Pending and Confirmed→Cancelled by `cancel`; the four exact error messages |
| `OrderLifecycle.Status` | behavioral/state.ts:26-68 | `getStatus` of each stage is a non-empty upper-case word ('PEDNING' for Pending); `StatusIdentifiesStage` shows the four are distinct |
| `OrderLifecycle.Apply` | behavioral/state.ts:74-88 | the stage after one call, the old one when the call threw: a terminal stage stays, after a cancel the order is terminal, and no call yields Pending; `StepOutcome` gives the full table |
| `OrderLifecycle.Run` | behavioral/state.ts:74-88 | the stage after a sequence of calls: a terminal stage stays terminal, and once `cancelOrder` was called the order is terminal; `TerminalIsAbsorbing` and `PendingOnlyAtStart` pin it down further |
| `OrderLifecycle.Messages` | behavioral/state.ts:74-88 | the lines the `catch` blocks write: at most one per call, each one of the four rejection messages |
| `OrderLifecycle.StatusIdentifiesStage` | behavioral/state.ts:26-68 | the four status strings, 'PEDNING' included, are pairwise distinct: equal status iff equal stage |
| `OrderLifecycle.StepOutcome` | behavioral/state.ts:74-88 | one call either moves to the stage the table dictates or, from a terminal stage, fails and leaves the stage unchanged |
| `OrderLifecycle.TerminalIsAbsorbing` | behavioral/state.ts:45-88 | from Delivered or Cancelled, every sequence of calls leaves the stage unchanged, and each call writes one error message |
| `OrderLifecycle.RepeatedAdvanceOnDelivered` | behavioral/state.ts:46-48 | any number of `nextState` calls on a delivered order all fail with 'Order already delivered' |
| `OrderLifecycle.PendingOnlyAtStart` | behavioral/state.ts:17-88 | the stage is Pending after a sequence of calls iff it started Pending and the sequence is empty |
| `OrderLifecycle.Reachability` | behavioral/state.ts:18-38 | next,next delivers; cancel from Pending or Confirmed cancels; next,next,cancel stays Delivered and logs the cancel error |
| `OrderLifecycle.Order.constructor` | behavioral/state.ts:72 | a new order is Pending and has written nothing |
| `OrderLifecycle.Order.NextState` | behavioral/state.ts:74-80 | `state` takes the next stage on success; on failure it is unchanged and the message is logged |
| `OrderLifecycle.Order.CancelOrder` | behavioral/state.ts:82-88 | `state` becomes Cancelled on success; on failure it is unchanged and the message is logged |
| `OrderLifecycle.Order.GetStatus` | behavioral/state.ts:90-92 | logs the current stage's status string and changes no stage |
| `OrderLifecycle.Order.Perform` | behavioral/state.ts:74-88 | a sequence of `nextState`/`cancelOrder` calls leaves the order in `Run` of its old stage, so the lemmas about `Run` apply to orders |
| `OrderLifecycle.Demo` | behavioral/state.ts:95-102 | the script prints PEDNING, CONFIRMED, CANCELLED, the rejection of `next`, and CANCELLED again |
| `JsSwitch.FirstMatch` | creational/factory-method.ts:32-36 | control enters at the first `case` whose label equals the discriminant, and only there |
| `JsSwitch.DefaultIndex` | behavioral/strategy.ts:31-35 | with no matching label, control enters at the first `default`, and there is one iff some clause is `default` |
| `JsSwitch.ExecStmts` | behavioral/strategy.ts:31-35 | a statement list completes normally, or returns or throws what one of its own `return`/`throw` statements says |
| `JsSwitch.DiscardsFallThrough` | behavioral/strategy.ts:32-33 | a body of expression statements only completes normally, so control falls through it |
| `JsSwitch.ExecFrom` | behavioral/strategy.ts:31-35 | running from clause i onward completes normally or as the body of some clause at or after i does |
| `JsSwitch.Switch` | creational/factory-method.ts:32-36 | the whole `switch` completes normally or as one of its clause bodies does |
| `JsSwitch.FallThroughTo` | behavioral/strategy.ts:31-35 | clause bodies without `return`/`throw` fall through to the next clause, so the first that completes abruptly decides |
| `FactoryMethod.CreateProcessor` | creational/factory-method.ts:31-37 | the only error `createProcessor` throws is "Unsupported payment processor: " + type; which types it accepts is `CreateProcessorSelects` |
| `FactoryMethod.CreateProcessorSelects` | creational/factory-method.ts:31-37 | 'PayPal' gives PayPalProcessor, 'Adyen' gives AdyenProcessor, and any other string throws "Unsupported payment processor: " + type |
| `FactoryMethod.CreateProcessorReturnsOnlyForLabels` | creational/factory-method.ts:32-36 | a processor is returned iff the type is exactly one of the two labels; the function never returns `undefined` |
| `FactoryMethod.LowerCaseIsRejected` | creational/factory-method.ts:32-36 | matching is case-sensitive: 'paypal' throws |
| `Strategy.GetPaymentStrategy` | behavioral/strategy.ts:30-36 | the only error `getPaymentStrategy` throws is "PaymentType " + type + " not found"; that it throws for every type is `GetPaymentStrategyAlwaysThrows` |
| `Strategy.GetPaymentStrategyAlwaysThrows` | behavioral/strategy.ts:30-36 | because the cases fall through, every type, 'Adyen' and 'PayPal' included, throws "PaymentType " + type + " not found" |
| `Strategy.PaymentService.constructor` | behavioral/strategy.ts:28 | `paymentStrategy` is declared with `!` and never initialised, so it starts unassigned, and no payment has been made |
| `Strategy.PaymentService.ProcessPayment` | behavioral/strategy.ts:38-41 | an exception from the selection escapes before `paymentStrategy` is assigned and before `pay` is called |
| `Strategy.Demo` | behavioral/strategy.ts:44-45 | paying 25.99 by 'PayPal' throws 'PaymentType PayPal not found' and pays nothing |
| `Composite.Grants` | structural/composite.ts:17-44 | `hasPermission` of either component kind is true iff p names one of the single permissions in its tree |
| `Composite.AnyGrants` | structural/composite.ts:42-44 | `some` over a list of children is true iff p names a single permission in one of their trees |
| `Composite.SingleGrantsOwnName` | structural/composite.ts:24-26 | a single permission grants p iff its name is p |
| `Composite.AnyGrantsIff` | structural/composite.ts:42-44 | `some` over the children: true iff some child grants p |
| `Composite.GroupNameIrrelevant` | structural/composite.ts:32-44 | an empty group grants nothing; renaming a group changes nothing it grants; a group's own name plays no part in what it grants |
| `Composite.AnyGrantsAppend` | structural/composite.ts:38-44 | appending a child grants what was granted before plus what the child grants |
| `Composite.PermissionGroup.constructor` | structural/composite.ts:30-32 | a new group has its name and no children |
| `Composite.PermissionGroup.GetName` | structural/composite.ts:34-36 | `getName` returns the group's name |
| `Composite.PermissionGroup.HasPermission` | structural/composite.ts:42-44 | true iff some child grants p |
| `Composite.PermissionGroup.Add` | structural/composite.ts:38-40 | appends one child and keeps the others in order; every permission granted before is still granted |
| `Composite.Demo` | structural/composite.ts:47-61 | Admin grants 'delete' and User does not |
| `ChainOfResponsibility.Check` | behavioral/chain-of-responsibility.ts:32-59 | one handler's own check: an answer is never `null`, and a request without a user is answered 429 "Authentication failed" by the authentication check and a TypeError by the role and rate-limit checks |
| `ChainOfResponsibility.HandleChain` | behavioral/chain-of-responsibility.ts:24-59 | a chain answers `null` or the answer of one of its checks, and a non-empty chain never passes a request without a user |
| `ChainOfResponsibility.AuthCheck` | behavioral/chain-of-responsibility.ts:33-36 | the authentication check fails, with status 429 "Authentication failed", iff the user is missing or not authenticated |
| `ChainOfResponsibility.RoleCheck` | behavioral/chain-of-responsibility.ts:43-46 | for a present user the role check passes iff the role is "admin", and otherwise answers 403 |
| `ChainOfResponsibility.RateLimitCheck` | behavioral/chain-of-responsibility.ts:53-56 | the rate limit passes iff requestsToday <= 1000: exactly 1000 passes, 1001 answers 429 |
| `ChainOfResponsibility.FirstAnswerWins` | behavioral/chain-of-responsibility.ts:24-59 | the first check that answers decides the response, whatever handlers follow it |
| `ChainOfResponsibility.PassedIffAllPass` | behavioral/chain-of-responsibility.ts:24-29 | the chain answers `null` iff every one of its checks passes |
| `ChainOfResponsibility.Handler.constructor` | behavioral/chain-of-responsibility.ts:18 | a new handler has no next handler |
| `ChainOfResponsibility.Handler.SetNext` | behavioral/chain-of-responsibility.ts:19-22 | stores the argument as the next handler and returns it |
| `ChainOfResponsibility.Handler.Handle` | behavioral/chain-of-responsibility.ts:24-59 | following the `next` links, the handler objects answer exactly what the chain of their kinds answers |
| `ChainOfResponsibility.Demo` | behavioral/chain-of-responsibility.ts:62-82 | auth→role→rate built by chained `setNext` passes the admin with 500 requests; a request without a user is answered 429 by the first handler |
| `Observer.Observer.constructor` | behavioral/observer.ts:40-62 | an observer of the given kind (audit logger, notification service or session tracker); the three classes have no state of their own |
| `Observer.Observer.Update` | behavioral/observer.ts:40-62 | each observer acts iff the event is 'login' |
| `Observer.RemoveAll` | behavioral/observer.ts:26-28 | the filtered list is no longer than the list, lacks the removed observer, and holds only entries of the list; `RemoveAllMembers` gives the converse |
| `Observer.RemoveAllMembers` | behavioral/observer.ts:26-28 | after removal, an observer is listed iff it was listed before and is not the removed one |
| `Observer.RemoveAllCounts` | behavioral/observer.ts:26-28 | every occurrence of the removed observer goes; every other observer keeps its number of occurrences |
| `Observer.RemoveAllAppend` | behavioral/observer.ts:26-28 | removal is piecewise over concatenation, so the remaining observers keep their order |
| `Observer.RemoveAllAbsent` | behavioral/observer.ts:26-28 | removing an observer that is not listed leaves the list unchanged |
| `Observer.UserActivityService.constructor` | behavioral/observer.ts:20 | a new service has an empty observer list |
| `Observer.UserActivityService.Subscribe` | behavioral/observer.ts:22-24 | appends the observer at the end; duplicates are allowed |
| `Observer.UserActivityService.Unsubscribe` | behavioral/observer.ts:26-28 | the list becomes the filtered list, without the observer and with every other entry |
| `Observer.UserActivityService.Notify` | behavioral/observer.ts:30-32 | one `update(event, data)` per list entry, in list order |
| `Observer.UserActivityService.UserLoggedIn` | behavioral/observer.ts:34-37 | notifies 'login' with the user to every entry, and every entry acts on it |
| `Observer.Demo` | behavioral/observer.ts:64-69 | the three observers are called in subscription order with ('login', 'd-123') |
| `Command.CallOf` | behavioral/command.ts:27-41 | each command forwards exactly its constructor arguments to its own service |
| `Command.CallsOf` | behavioral/command.ts:50-53 | running a queue makes one service call per command, in queue order |
| `Command.CallsOfAppend` | behavioral/command.ts:46-53 | the calls of a queue extended at the end are the old calls followed by the new ones |
| `Command.Execute` | behavioral/command.ts:30-32 | executing a command makes exactly its service call |
| `Command.CommandInvoker.constructor` | behavioral/command.ts:44 | a new invoker has an empty queue |
| `Command.CommandInvoker.AddCommand` | behavioral/command.ts:46-48 | appends the command at the end of the queue |
| `Command.CommandInvoker.Run` | behavioral/command.ts:50-55 | all queued commands run in insertion order, then the queue is empty; an empty queue makes no call |
| `Command.Demo` | behavioral/command.ts:58-66 | the email is sent and then the report generated, once each, and the queue ends empty |
| `JsValues.Record.constructor` | creational/builder.ts:25-26 | a new dictionary object holds exactly the given entries (the builder passes none, for `{}`) |
| `JsValues.JsonBox.constructor` | creational/prototype.ts:29 | a new object (Dafny allocates it fresh) holding the given JSON value, as `JSON.parse` builds a new object |
| `JsValues.Record.Set` | creational/builder.ts:40 | sets one key, overwriting any earlier value, and leaves the other keys unchanged |
| `Builder.HttpRequest.constructor` | creational/builder.ts:12-20 | the request stores the values and the very dictionary objects it is given |
| `Builder.HttpRequestBuilder.constructor` | creational/builder.ts:23-27 | a fresh builder has method 'GET', no URL, two new empty dictionaries and no body |
| `Builder.HttpRequestBuilder.SetMethod` | creational/builder.ts:29-32 | replaces the method, changes nothing else, and returns the builder itself |
| `Builder.HttpRequestBuilder.SetURL` | creational/builder.ts:34-37 | replaces the URL, changes nothing else, and returns the builder itself |
| `Builder.HttpRequestBuilder.AddHeader` | creational/builder.ts:39-42 | sets one header key, leaves other headers and all parameters unchanged, and returns the builder |
| `Builder.HttpRequestBuilder.AddParam` | creational/builder.ts:44-47 | sets one parameter key, leaves other parameters and all headers unchanged, and returns the builder |
| `Builder.HttpRequestBuilder.SetBody` | creational/builder.ts:49-52 | replaces the body, changes nothing else, and returns the builder itself |
| `Builder.HttpRequestBuilder.Build` | creational/builder.ts:54-56 | a new request with the current values and the same header and parameter objects |
| `Builder.Demo` | creational/builder.ts:59-65 | the chained script builds a POST to the example URL with only the correlation header |
| `Builder.SharedHeadersDemo` | creational/builder.ts:25-56 | setters are last-write-wins, the URL stays undefined without `setURL`, and a header added after `build` shows in the built request |
| `Prototype.APIRequest.constructor` | creational/prototype.ts:17-22 | the request stores the given URL, method, headers object and body object |
| `Prototype.APIRequest.Clone` | creational/prototype.ts:24-31 | a new request with the same URL and method, the same headers object, and a new body object with equal content |
| `Prototype.Demo` | creational/prototype.ts:34-49 | reassigning the clone's method and body leaves the original's unchanged, while both share the headers |
| `Flyweight.VehicleType.constructor` | structural/flyweight.ts:23-27 | the type keeps the given name, icon and colour |
| `Flyweight.VehicleType.Render` | structural/flyweight.ts:29-31 | renders the shared fields at the given position |
| `Flyweight.Key` | structural/flyweight.ts:38 | the key is the name, the icon and the colour in that order, each of the first two followed by '_' |
| `Flyweight.KeyDeterminesParts` | structural/flyweight.ts:38-43 | when no name or icon contains '_', equal keys mean equal triples, so a shared object always comes from '_' inside a part |
| `Flyweight.KeyCollision` | structural/flyweight.ts:38 | ('a_b','c') and ('a','b_c') join to the same key |
| `Flyweight.VehicleTypeFactory.constructor` | structural/flyweight.ts:35 | a new factory has an empty map |
| `Flyweight.VehicleTypeFactory.GetVehicleType` | structural/flyweight.ts:37-44 | a new key stores exactly one new type; a known key returns the stored object and leaves the map unchanged; no entry is replaced or removed |
| `Flyweight.Vehicle.constructor` | structural/flyweight.ts:48-52 | the vehicle keeps its own x and y and the very type object it is given |
| `Flyweight.Vehicle.Render` | structural/flyweight.ts:54-56 | passes the vehicle's own x and y to its shared type |
| `Flyweight.DemoTypes` | structural/flyweight.ts:62-65 | the four requests of the script yield three distinct types, the two cars sharing one |
| `Flyweight.Demo` | structural/flyweight.ts:59-65 | four vehicles share three types |
| `Flyweight.CollisionDemo` | structural/flyweight.ts:38-43 | a colliding second triple receives the object created for the first |
| `Proxy.UserRecord` | structural/proxy.ts:22 | the user text is 24 characters longer than twice the id, starts with the `id` field holding the id, and ends with the `name` field 'User_' + id |
| `Proxy.UserRecordInjective` | structural/proxy.ts:20-23 | the real service gives different texts for different ids |
| `Proxy.RealUserService.GetUser` | structural/proxy.ts:20-23 | logs the database fetch and returns the user text built from the id |
| `Proxy.UserProxyService.constructor` | structural/proxy.ts:27 | a new proxy has an empty cache |
| `Proxy.UserProxyService.GetUser` | structural/proxy.ts:29-37 | answers what the real service would; a hit leaves the cache alone and skips the real service; a miss fetches once and stores the answer; no entry is overwritten |
| `Proxy.Demo` | structural/proxy.ts:40-43 | the second request for '123' is served from the cache with the same text |
| `Singleton.DBConnection.constructor` | creational/singleton.ts:12-13 | a new connection is not connected |
| `Singleton.DBConnection.Connect` | creational/singleton.ts:23-27 | changes nothing on either path |
| `Singleton.DBConnectionClass.constructor` | creational/singleton.ts:11 | the static `instance` starts out absent |
| `Singleton.DBConnectionClass.GetInstance` | creational/singleton.ts:15-21 | the first call creates and stores a new instance; later calls return the stored one; it is never connected |
| `Singleton.Demo` | creational/singleton.ts:30-36 | two `getInstance` calls yield the same object, so the script prints `true`, and neither is connected |

## Left out

- Console text: the exact wording and formatting of log lines (`render`, the
  audit, notification and tracker lines, the `pay` messages) is not modelled.
  Where the console is the only effect, the model records which event
  happened (a service call, a cache hit), not the text; only the order's
  `output` holds literal strings.
- Console lines that are not recorded at all: the handlers' "Authentication
  Passed", "Role Passed" and "RateLimit Passed" lines and the script's final
  verdict line (behavioral/chain-of-responsibility.ts:37, 47, 57, 78-82), the
  factory's "Creating a new VehicleType" line (structural/flyweight.ts:40),
  and "User logged in" (behavioral/observer.ts:35). Each only reports what the
  recorded results already show.
- The `Console` classes of the command and proxy modules, and the
  constructor of `Proxy.RealUserService`, stand for the console and for a
  stateless object; they model no source initialiser and have no row.
- `SinglePermission.getName` (structural/composite.ts:20-22) is the field
  `name` of `Single` and has no member of its own.
- `AuditLogger` stamps its line with `new Date()`, and all three observers
  read `data.name` from a string. Neither is modelled: `Update` keeps only
  the decision to act on 'login'.
- `Proxy.UserRecord` writes `JSON.stringify`'s output for ids without
  characters that JSON must escape. Escaping of `"`, `\` and control
  characters is not modelled.
- `Prototype.APIRequest.Clone`: the JSON round trip of the body is the
  identity on the `Json` datatype. What `JSON.stringify` drops or changes
  (`undefined`, functions, dates, non-finite numbers) is not modelled.
- Numbers are unbounded integers (`JNumber`, `userId`, `requestsToday`). The
  payment amount is a `real`. IEEE-754 floating point, `NaN` and fractional
  request counts are not modelled.
- JavaScript truthiness is modelled only where the source tests it. A missing
  `user` is `None`, `isAuthenticated` is a boolean, and an absent singleton
  instance is `null`. Other falsy values are not modelled.
- `Command.CommandInvoker.Run` treats `async`/`await` as plain sequential
  execution. Commands queued while a run is in progress are not modelled.
  Neither service can throw, so the source never reaches the path where the
  queue is left uncleared because a command threw.
- The service objects that commands hold are stateless and not modelled.
  Each command records only its arguments.
- `ChainOfResponsibility.Handler.Handle` requires that following the `next`
  links from the handler ends in `null`. Chains whose links loop back (such
  as `auth.setNext(role); role.setNext(auth)`) are not modelled. On such a
  chain the source answers as soon as a check on the loop fails (an
  authenticated non-admin gets 403 on the loop above), and otherwise recurses
  until the call stack overflows.
- `Composite.PermissionGroup.Add` stores the value of the added component at
  the time of the call. A group changed after it was added to another group
  is not reflected in the parent, and cyclic groups (a group added to itself)
  are not modelled.
- `Strategy.PaymentService.ProcessPayment` states its effect in terms of
  `GetPaymentStrategy`. That this is always the thrown error follows from
  `Strategy.GetPaymentStrategyAlwaysThrows`, as `Strategy.Demo` shows.
- TypeScript's `static` field in creational/singleton.ts becomes a field of
  one `DBConnectionClass` object, because Dafny classes have no mutable
  static state.
- The `pay` methods of the processors and strategies only print, and are not
  modelled.
- structural/adapter.ts, structural/bridge.ts, structural/facade.ts,
  structural/decorator.ts and creational/abstract-factory.ts are not part of
  this model. They only forward calls to the console, with two exceptions: the decorator
  also reads the clock, and the facade's `placeOrder` (structural/facade.ts:43-57)
  branches on what its inventory and payment stubs return, which is always
  `true`, so it always reaches the order-completed path.
