# findUser — a Dafny model

This project models `findUser` of the node-activedirectory client
(`lib/services/service.findUser.js`): the call that looks up one directory user
by name. The call is loosely typed. It accepts `(opts, username,
includeMembership, callback)` in several positional shapes. It builds an LDAP
query from the options, searches, projects the first record into a `User`,
optionally fetches the user's group memberships, and then delivers the outcome.
Delivery uses three channels: a `'user'` event on the client, the optional
Node-style callback, and the returned promise.

The model has six modules:

- `JsValues` (`js_values.dfy`): the JavaScript values the call inspects. It covers
  `typeof`, truthiness, `a || b`, property reads, and underscore's `_.omit` and
  `_.defaults`.
- `Externals` (`externals.dfy`): the collaborators whose code is not shown. Each
  one is a function-valued field of `Collaborators`, so every property below holds
  whatever they compute. They are `getUserQueryFilter`, `joinAttributes`,
  `getRequiredLdapAttributesForUser`, `defaultAttributes.user`, `pickAttributes`,
  the `User` constructor and `includeGroupMembershipFor`.
- `ArgumentNormalizer` (`argument_normalizer.dfy`): the four `typeof` rules that
  move arguments between the four slots. `NormalizeArguments` applies them one
  after the other, as the source does. `Resolution` says independently, slot by
  slot, where each argument ends up.
- `UserQuery` (`user_query.dfy`): the query sent to the search, and the attribute
  list used to project the user. Options are immutable values here, so the caller's
  `opts` is never changed; `_.omit` makes a new map.
- `Dispatch` (`dispatch.dfy`): the observable effects as an ordered trace of
  `Event`s, and `Deliver`, which sends one settled outcome over the three channels.
- `FindUserService` (`find_user.dfy`): the call itself. `FindUser`, `OnSearch`
  and `OnMembership` follow the source's body and its two nested continuations,
  statement by statement. They are proved equal to `FindUserTrace`, which first
  decides the outcome once (`Decide`) and then delivers it once (`Deliver`). The
  lemmas about that trace are the call's promises.

The search and the membership lookup are external I/O. Their answers are inputs
(`SearchOutcome`, `FetchOutcome`). The trace records whether the lookup was made
and with which arguments.

A few consequences of the code that a caller may not expect:

- Arguments are resolved by the code's four `typeof` rules in source order
  (lines 27-43), not by looking for the last callable argument. So `(opts, cb)`
  makes `opts` the identifier, and `(opts, true, cb)` copies `opts` into the
  identifier slot.
- A not-found result emits no `'user'` event: line 67 returns before any emit.
- Nothing here claims that the attribute merge removes duplicates. That is up to
  `joinAttributes`, whose code is not part of this model.
- The handler test is `if (callback)`, a truthiness test. A truthy value that is
  not a function is still called, and that call throws a `TypeError`. The model
  records `CallbackThrew` and stops the continuation there, so the `reject` or
  `resolve` after it never runs. This assumes the search and the lookup answer
  asynchronously; a transport that calls back synchronously inside the promise
  executor would let the promise reject with the `TypeError` (see "## Left out").

## Model

| member | source | states |
|---|---|---|
| `ArgumentNormalizer.NormalizeArguments` | lib/services/service.findUser.js:27-43 | Applying the four reassignment rules in source order gives exactly the slot-wise `Resolution` of the arguments. |
| `ArgumentNormalizer.Resolution` | lib/services/service.findUser.js:27-43 | After normalisation the flag never holds a function. A string first argument is always the identifier, with no options. A boolean second argument becomes the flag, and the first argument is then copied into the identifier slot unless it is a string. A handler in the second slot leaves no options and moves the first argument to the identifier slot, or to the flag when it is a boolean; otherwise a non-function flag stays in place. A handler in the third slot clears the flag unless a boolean second argument, or a boolean first argument with a handler in the second slot, refills it. Already-canonical arguments pass through unchanged. The handler is the function in the second, else the third, else the fourth slot. |
| `ArgumentNormalizer.DocumentedShapes` | lib/services/service.findUser.js:26-43 | `(opts,id,flag,cb)`, `(opts,id,cb)`, `(opts,id)`, `(id,flag,cb)`, `(id,cb)`, `(id,flag)` and `(id)` each resolve to the expected canonical tuple. |
| `ArgumentNormalizer.UndocumentedShapes` | lib/services/service.findUser.js:31-39 | The permissive coercions: `(obj,flag,cb)` gives `(obj,obj,flag,cb)`, `(obj,cb)` gives `(undefined,obj,undefined,cb)`, and `(flag,cb)` leaves the identifier undefined. |
| `JsValues.Omit` | lib/services/service.findUser.js:48 | `_.omit` returns a copy of the own properties without the omitted key and changes no other value. |
| `JsValues.Defaults` | lib/services/service.findUser.js:48-52 | `_.defaults` keeps every key whose value is not `undefined`, fills each default key whose value is missing or `undefined`, and has exactly the union of both key sets. |
| `UserQuery.EffectiveQuery` | lib/services/service.findUser.js:48-52 | The query has the caller's keys minus `attributes`, plus `filter`, `scope` and `attributes`. Every other supplied key reaches the search unchanged. `filter` and `scope` default to the user filter and `'sub'` only when undefined. `attributes` is always `joinAttributes(base, required(opts))`. |
| `UserQuery.FetchAttributeFallback` | lib/services/service.findUser.js:51 | The attribute base is the caller's list when truthy (an empty array included), else `defaultAttributes.user` when truthy, else `[]`. |
| `UserQuery.RawAttributesNeverSent` | lib/services/service.findUser.js:48-51 | The caller's `attributes` affects the query only through the merged list. Options that agree elsewhere and merge to the same list give the same query. |
| `Dispatch.DeliverOnce` | lib/services/service.findUser.js:55-102 | Delivering an outcome uses each channel at most once. The promise settles exactly once unless the handler threw. The handler runs once when truthy. Only a success that carries a user notifies. |
| `Dispatch.DeliverAgrees` | lib/services/service.findUser.js:55-102 | With a callable handler, delivery is `[callback(err), reject(err)]`, `[emit, callback(null,v), resolve(v)]` or `[callback(null,v), resolve(v)]`. The handler and the promise carry the same error or value. |
| `FindUserService.FindUser` | lib/services/service.findUser.js:26-54 | The call's statement-by-statement trace equals `FindUserTrace`. The base location is updated before the single search. |
| `FindUserService.OnSearch` | lib/services/service.findUser.js:54-103 | The search continuation yields the membership lookup (if any) followed by delivery of the decided outcome. |
| `FindUserService.OnMembership` | lib/services/service.findUser.js:75-89 | The membership continuation rejects with the lookup's error, or attaches `groups` and delivers the enriched user. |
| `FindUserService.ChannelsFireOnce` | lib/services/service.findUser.js:53-103 | Every channel fires at most once per call. There is one base-location update, one search, and a lookup only when fetching. A notification happens only after a successful find that did not fail enrichment. The handler runs once when present. The promise settles once unless the handler threw. |
| `FindUserService.SearchErrorIsDelivered` | lib/services/service.findUser.js:55-60 | A search error goes to the handler and rejects the promise with the same error. There is no emit and no membership lookup. |
| `FindUserService.NotFoundResolvesEmpty` | lib/services/service.findUser.js:62-68 | A null or empty result is a success with `{}` on both the handler and the promise. There is no emit and no lookup, even when membership was requested. |
| `FindUserService.OnlyFirstRecordCounts` | lib/services/service.findUser.js:70 | Two result lists with the same first record give the same trace, so extra records change nothing. |
| `FindUserService.ProjectionIgnoresFetchSet` | lib/services/service.findUser.js:70 | The user is projected with the caller's (or default) attribute list. Changing the merge or the required attributes does not change the outcome or the lookup. |
| `FindUserService.MembershipLookupIff` | lib/services/service.findUser.js:74-75 | The lookup for `user.dn` is made if and only if a record was found and either `includeGroupMembershipFor(opts,'user')` or the flag is truthy. It comes right after the search. |
| `FindUserService.NoMembershipRequested` | lib/services/service.findUser.js:91-102 | Without a request, the lookup's answer does not matter and no `groups` are attached. The order is emit, then `callback(null,user)`, then `resolve(user)`. |
| `FindUserService.MembershipAttached` | lib/services/service.findUser.js:82-88 | When the lookup succeeds, `groups` is attached. The order is lookup, emit, callback, resolve, all carrying the enriched user. |
| `FindUserService.MembershipFailureRejects` | lib/services/service.findUser.js:76-81 | When the lookup fails, the call fails with that error on the handler and the promise, and nothing is emitted. |
| `FindUserService.PlainLookupScenario` | lib/services/service.findUser.js:26-102 | `findUser("jsmith")` with one record: the filter is built from "jsmith", the scope is `'sub'`, and the attributes are the defaults merged with the required ones. The user is emitted and then resolved, without `groups`. |
| `FindUserService.GhostLookupScenario` | lib/services/service.findUser.js:36-67 | `findUser("ghost", true, cb)` with no record: no lookup despite the flag, no emit, and `{}` on the callback and the promise. |

## Left out

- The directory search (`search`) and `getGroupMembershipForDN`: these are I/O. Their answers are inputs, and a lookup's answer does not depend on the `dn` it is given.
- `updateBaseDn`: its effect on the shared client context is not modelled. The trace records only that it happens, with kind `"user"`, before the search.
- `joinAttributes`, `pickAttributes`, `getRequiredLdapAttributesForUser`, `getUserQueryFilter`, `includeGroupMembershipFor`, `defaultAttributes` and the `User` model: their code is not part of this model. They are arbitrary functions, and no property of theirs, such as de-duplication, is claimed.
- Logging (`log.trace`, `log.warn`, `log.info`, `truncateLogOutput`): it is diagnostic only.
- Promises, `EventEmitter` and asynchrony: settlement and notification are events in an ordered trace. A listener that throws inside `emit` is not modelled, and neither is what the search transport does with an exception thrown by a non-callable callback.
- Lines 93-98: this branch is dead code. `err` is always falsy there because line 55 already returned, so the model has no branch for it.
- `this` binding and the `self` client object: they are implicit in the trace.
- JavaScript values: numbers are integers (no NaN, no fractions). Arrays and functions are treated as having no enumerable own properties, so `_.omit` on an array `opts` gives `{}` and not its index keys. Inherited enumerable properties are ignored by `_.omit` and `_.defaults`.
- `JsValues.Get`: only keys that no primitive or built-in prototype carries are read (`attributes`, `dn`). On any non-object it returns `undefined`.
- Dispatch.DeliverOnce and FindUserService.ChannelsFireOnce: a callable handler is assumed to return normally. A handler that throws inside `callback(...)` at lines 57, 65, 78, 86 or 100 stops the `reject`/`resolve` after it, so that promise never settles (when the transport answers asynchronously). Only the non-callable handler's `TypeError` is modelled.
- FindUserService.FindUser: the collaborators called inside the promise executor (`getUserQueryFilter`, `joinAttributes`, `getRequiredLdapAttributesForUser`, `updateBaseDn`, `search`, lines 48-54) are total here. If one of them throws, the promise rejects without the handler being called and without a search; that path is not modelled.
- FindUserService.ChannelsFireOnce: the search and the membership lookup are assumed to call their continuation exactly once, asynchronously. A transport that called `onSearch` twice would call the handler twice. The calls made inside `onSearch` are total here: `pickAttributes` and the `User` constructor (line 70), `includeGroupMembershipFor` (line 74) and a synchronous throw from `getGroupMembershipForDN` (line 75). If one of them throws, the continuation ends before the handler, the emit and `resolve`/`reject`, so the promise never settles; that path is not modelled.
- Object identity and aliasing: values are immutable here. On a successful find, one `user` object goes to `emit`, the handler and `resolve` (lines 84-88 and 92-102), so a listener or handler that mutates it changes what the later channels see; the model does not capture that. On not-found, lines 65 and 67 pass two distinct `{}` objects, which the model does not distinguish.
