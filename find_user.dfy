/** `findUser`: normalise the call, build the query, search, project the first
    record, optionally fetch group membership, and deliver the outcome. The search
    and the membership lookup are external: their results are inputs. */
module FindUserService {
  import opened JsValues
  import opened Externals
  import opened ArgumentNormalizer
  import opened UserQuery
  import opened Dispatch

  /** What the search transport passes to `onSearch(err, results)`;
      `results` is `None` for `null` or `undefined`. */
  datatype SearchOutcome = SearchOutcome(err: Value, results: Option<seq<Value>>)

  /** What the membership lookup passes to its callback `(err, groups)`. */
  datatype FetchOutcome = FetchOutcome(err: Value, groups: Value)

  /** The search succeeded and returned at least one record. */
  predicate Found(search: SearchOutcome) {
    !Truthy(search.err) && search.results.Some? && |search.results.value| > 0
  }

  /** `new User(pickAttributes(results[0], (opts || {}).attributes || defaultAttributes.user))` */
  function FirstUser(c: Collaborators, opts: Value, search: SearchOutcome): map<string, Value>
    requires Found(search)
  {
    c.newUser(c.pickAttributes(search.results.value[0], ProjectionAttributes(c, opts)))
  }

  /** `includeGroupMembershipFor(opts, 'user') || includeMembership` */
  predicate WantsMembership(c: Collaborators, opts: Value, includeMembership: Value) {
    c.includeGroupMembershipFor(opts, "user") || Truthy(includeMembership)
  }

  predicate FetchesMembership(c: Collaborators, t: CallTuple, search: SearchOutcome) {
    Found(search) && WantsMembership(c, t.opts, t.includeMembership)
  }

  /** The base location update and the search for `query`, which every call performs first. */
  function Prelude(query: map<string, Value>): seq<Event> {
    [UpdateBaseDn("user"), Search(query)]
  }

  /** The membership lookup for `user.dn`, when it is made. */
  function MembershipCalls(c: Collaborators, t: CallTuple, search: SearchOutcome): seq<Event> {
    if FetchesMembership(c, t, search) then [FetchMembership(t.opts, Get(Obj(FirstUser(c, t.opts, search)), "dn"))]
    else []
  }

  /** The single outcome an invocation settles on. */
  function Decide(c: Collaborators, t: CallTuple, search: SearchOutcome, fetch: FetchOutcome): Settlement {
    if Truthy(search.err) then Refuse(search.err)
    else if !Found(search) then Fulfil(EmptyObject, false)
    else if WantsMembership(c, t.opts, t.includeMembership) then
      if Truthy(fetch.err) then Refuse(fetch.err)
      else Fulfil(Obj(FirstUser(c, t.opts, search)["groups" := fetch.groups]), true)
    else Fulfil(Obj(FirstUser(c, t.opts, search)), true)
  }

  /** The observable trace once the arguments are normalised and `query` is built:
      search, look up membership when needed, decide once, then deliver once. */
  function CallTrace(c: Collaborators, t: CallTuple, query: map<string, Value>,
                     search: SearchOutcome, fetch: FetchOutcome): seq<Event> {
    Prelude(query) + MembershipCalls(c, t, search) + Deliver(Decide(c, t, search, fetch), t.callback)
  }

  /** The whole observable trace of `findUser(opts, username, includeMembership, callback)`. */
  function FindUserTrace(c: Collaborators, search: SearchOutcome, fetch: FetchOutcome,
                         opts: Value, username: Value, includeMembership: Value, callback: Value): seq<Event>
  {
    var t := Resolution(opts, username, includeMembership, callback);
    CallTrace(c, t, EffectiveQuery(c, t.opts, t.username), search, fetch)
  }

  /** `findUser` up to the search: normalise the arguments, build the query, update
      the base location, start the search, and continue in `OnSearch`. */
  method FindUser(c: Collaborators, search: SearchOutcome, fetch: FetchOutcome,
                  opts0: Value, username0: Value, includeMembership0: Value, callback0: Value)
    returns (trace: seq<Event>)
    ensures trace == FindUserTrace(c, search, fetch, opts0, username0, includeMembership0, callback0)
  {
    var t := NormalizeArguments(opts0, username0, includeMembership0, callback0);
    var localOpts := EffectiveQuery(c, t.opts, t.username);
    trace := [UpdateBaseDn("user")];
    trace := trace + [Search(localOpts)];
    var rest := OnSearch(c, t, search, fetch);
    trace := trace + rest;
  }

  /** The search continuation `onSearch(err, results)`. */
  method OnSearch(c: Collaborators, t: CallTuple, search: SearchOutcome, fetch: FetchOutcome)
    returns (trace: seq<Event>)
    ensures trace == MembershipCalls(c, t, search) + Deliver(Decide(c, t, search, fetch), t.callback)
  {
    if Truthy(search.err) {
      trace := HandlerEvents(t.callback, CallbackError(search.err));
      if Throws(t.callback) { return; }
      trace := trace + [Reject(search.err)];
      return;
    }
    if search.results.None? || |search.results.value| == 0 {
      trace := HandlerEvents(t.callback, CallbackResult(EmptyObject));
      if Throws(t.callback) { return; }
      trace := trace + [Resolve(EmptyObject)];
      return;
    }
    var user := c.newUser(c.pickAttributes(search.results.value[0], ProjectionAttributes(c, t.opts)));
    if c.includeGroupMembershipFor(t.opts, "user") || Truthy(t.includeMembership) {
      trace := [FetchMembership(t.opts, Get(Obj(user), "dn"))];
      var rest := OnMembership(t.callback, user, fetch);
      trace := trace + rest;
    } else {
      trace := [Emit("user", Obj(user))];
      trace := trace + HandlerEvents(t.callback, CallbackResult(Obj(user)));
      if Throws(t.callback) { return; }
      trace := trace + [Resolve(Obj(user))];
    }
  }

  /** The membership continuation `function (err, groups)`: attach `groups` to the
      user, or fail with the lookup's error. */
  method OnMembership(callback: Value, user: map<string, Value>, fetch: FetchOutcome)
    returns (trace: seq<Event>)
    ensures trace == Deliver(if Truthy(fetch.err) then Refuse(fetch.err)
                             else Fulfil(Obj(user["groups" := fetch.groups]), true), callback)
  {
    if Truthy(fetch.err) {
      trace := HandlerEvents(callback, CallbackError(fetch.err));
      if Throws(callback) { return; }
      trace := trace + [Reject(fetch.err)];
      return;
    }
    var enriched := user["groups" := fetch.groups];
    trace := [Emit("user", Obj(enriched))];
    trace := trace + HandlerEvents(callback, CallbackResult(Obj(enriched)));
    if Throws(callback) { return; }
    trace := trace + [Resolve(Obj(enriched))];
  }

  /** Every channel is used at most once: one base location update, one search, at
      most one membership lookup, at most one notification (only on a successful
      find), one handler call when a handler is present, and one settlement of the
      promise unless the handler threw. */
  lemma ChannelsFireOnce(c: Collaborators, t: CallTuple, query: map<string, Value>,
                         search: SearchOutcome, fetch: FetchOutcome)
    ensures var trace := CallTrace(c, t, query, search, fetch);
            && (forall ch :: Count(trace, ch) <= 1)
            && Count(trace, BaseDnUpdate) == 1
            && Count(trace, SearchCall) == 1
            && Count(trace, MembershipCall) == (if FetchesMembership(c, t, search) then 1 else 0)
            && Count(trace, Notification)
               == (if Found(search) && !(WantsMembership(c, t.opts, t.includeMembership) && Truthy(fetch.err)) then 1 else 0)
            && Count(trace, Handler) == (if Truthy(t.callback) then 1 else 0)
            && Count(trace, Deferred) == (if Throws(t.callback) then 0 else 1)
  {
    forall ch: Channel
      ensures Count(CallTrace(c, t, query, search, fetch), ch)
              == (if ch == BaseDnUpdate || ch == SearchCall then 1 else 0)
                 + (if ch == MembershipCall && FetchesMembership(c, t, search) then 1 else 0)
                 + DeliveredCount(Decide(c, t, search, fetch), t.callback, ch)
    {
      CallTraceCount(c, t, query, search, fetch, ch);
    }
  }

  lemma CallTraceCount(c: Collaborators, t: CallTuple, query: map<string, Value>,
                       search: SearchOutcome, fetch: FetchOutcome, ch: Channel)
    ensures Count(CallTrace(c, t, query, search, fetch), ch)
            == (if ch == BaseDnUpdate || ch == SearchCall then 1 else 0)
               + (if ch == MembershipCall && FetchesMembership(c, t, search) then 1 else 0)
               + DeliveredCount(Decide(c, t, search, fetch), t.callback, ch)
  {
    var s := Decide(c, t, search, fetch);
    var pre, mid := Prelude(query), MembershipCalls(c, t, search);
    CountConcat(pre + mid, Deliver(s, t.callback), ch);
    CountOfThree([pre[0]], [pre[1]], mid, ch);
    assert pre + mid == [pre[0]] + [pre[1]] + mid;
    DeliverCount(s, t.callback, ch);
  }

  /** A search error is handed to the handler and rejects the promise with that same
      error; no notification is emitted and no membership lookup is made. */
  lemma SearchErrorIsDelivered(c: Collaborators, t: CallTuple, query: map<string, Value>,
                               search: SearchOutcome, fetch: FetchOutcome)
    requires Truthy(search.err)
    ensures Decide(c, t, search, fetch) == Refuse(search.err)
    ensures CallTrace(c, t, query, search, fetch) == Prelude(query) + Deliver(Refuse(search.err), t.callback)
    ensures TypeOf(t.callback) == FunctionT
            ==> CallTrace(c, t, query, search, fetch) == Prelude(query) + [CallbackError(search.err), Reject(search.err)]
    ensures !Truthy(t.callback) ==> CallTrace(c, t, query, search, fetch) == Prelude(query) + [Reject(search.err)]
  {
  }

  /** No matching record is a success with the empty object `{}` on both the handler
      and the promise; nothing is emitted and no membership lookup is made, even when
      membership was requested. */
  lemma NotFoundResolvesEmpty(c: Collaborators, t: CallTuple, query: map<string, Value>,
                              search: SearchOutcome, fetch: FetchOutcome)
    requires !Truthy(search.err)
    requires search.results.None? || search.results.value == []
    ensures Decide(c, t, search, fetch) == Fulfil(EmptyObject, false)
    ensures CallTrace(c, t, query, search, fetch) == Prelude(query) + Deliver(Fulfil(EmptyObject, false), t.callback)
    ensures TypeOf(t.callback) == FunctionT
            ==> CallTrace(c, t, query, search, fetch) == Prelude(query) + [CallbackResult(EmptyObject), Resolve(EmptyObject)]
    ensures !Truthy(t.callback) ==> CallTrace(c, t, query, search, fetch) == Prelude(query) + [Resolve(EmptyObject)]
  {
  }

  /** Only the first record matters: any two result lists that start with the same
      record yield the same trace, so extra records change nothing. */
  lemma OnlyFirstRecordCounts(c: Collaborators, t: CallTuple, query: map<string, Value>,
                              err: Value, records1: seq<Value>, records2: seq<Value>,
                              fetch: FetchOutcome)
    requires records1 != [] && records2 != [] && records1[0] == records2[0]
    ensures CallTrace(c, t, query, SearchOutcome(err, Some(records1)), fetch)
         == CallTrace(c, t, query, SearchOutcome(err, Some(records2)), fetch)
  {
  }

  /** The user is projected with the caller's attribute list (or the configured
      default), not with the merged list sent to the search: replacing the merge and
      the required-attribute computation changes neither the outcome nor the lookup. */
  lemma ProjectionIgnoresFetchSet(c: Collaborators, join: (Value, Value) -> Value, required: Value -> Value,
                                  t: CallTuple, search: SearchOutcome, fetch: FetchOutcome)
    ensures var c' := c.(joinAttributes := join, requiredAttributes := required);
            && Decide(c', t, search, fetch) == Decide(c, t, search, fetch)
            && MembershipCalls(c', t, search) == MembershipCalls(c, t, search)
  {
  }

  /** The membership lookup is made if and only if a record was found and membership
      was asked for, either by the options or by the flag; it comes right after the
      search and before anything is delivered. */
  lemma MembershipLookupIff(c: Collaborators, t: CallTuple, query: map<string, Value>,
                            search: SearchOutcome, fetch: FetchOutcome)
    ensures Count(CallTrace(c, t, query, search, fetch), MembershipCall) == 1
            <==> Found(search) && WantsMembership(c, t.opts, t.includeMembership)
    ensures Count(CallTrace(c, t, query, search, fetch), MembershipCall) == 0
            <==> !(Found(search) && WantsMembership(c, t.opts, t.includeMembership))
    ensures Found(search) && WantsMembership(c, t.opts, t.includeMembership)
            ==> CallTrace(c, t, query, search, fetch)[2] == FetchMembership(t.opts, Get(Obj(FirstUser(c, t.opts, search)), "dn"))
  {
    ChannelsFireOnce(c, t, query, search, fetch);
  }

  /** Without a membership request, whatever the lookup would have answered is
      irrelevant: no `groups` are attached and the user is delivered as projected,
      notification first, then the handler, then the promise. */
  lemma NoMembershipRequested(c: Collaborators, t: CallTuple, query: map<string, Value>,
                              search: SearchOutcome,
                              fetch1: FetchOutcome, fetch2: FetchOutcome)
    requires Found(search) && !WantsMembership(c, t.opts, t.includeMembership)
    ensures CallTrace(c, t, query, search, fetch1) == CallTrace(c, t, query, search, fetch2)
    ensures Decide(c, t, search, fetch1) == Fulfil(Obj(FirstUser(c, t.opts, search)), true)
    ensures var user := Obj(FirstUser(c, t.opts, search));
            TypeOf(t.callback) == FunctionT
            ==> CallTrace(c, t, query, search, fetch1) == Prelude(query) + [Emit("user", user), CallbackResult(user), Resolve(user)]
  {
  }

  /** With a membership request and a successful lookup, `groups` is attached and the
      enriched user is emitted, then handed to the handler, then resolved. */
  lemma MembershipAttached(c: Collaborators, t: CallTuple, query: map<string, Value>,
                           search: SearchOutcome, fetch: FetchOutcome)
    requires Found(search) && !Truthy(fetch.err) && WantsMembership(c, t.opts, t.includeMembership)
    ensures Decide(c, t, search, fetch).Fulfil?
    ensures Decide(c, t, search, fetch).value.Obj?
    ensures Decide(c, t, search, fetch).value.props["groups"] == fetch.groups
    ensures var user := FirstUser(c, t.opts, search);
            var enriched := Obj(user["groups" := fetch.groups]);
            TypeOf(t.callback) == FunctionT
            ==> CallTrace(c, t, query, search, fetch)
                == Prelude(query) + [FetchMembership(t.opts, Get(Obj(user), "dn")),
                                    Emit("user", enriched), CallbackResult(enriched), Resolve(enriched)]
  {
  }

  /** A failed membership lookup fails the whole call with that error, on both the
      handler and the promise, and nothing is emitted. */
  lemma MembershipFailureRejects(c: Collaborators, t: CallTuple, query: map<string, Value>,
                                 search: SearchOutcome, fetch: FetchOutcome)
    requires Found(search) && Truthy(fetch.err) && WantsMembership(c, t.opts, t.includeMembership)
    ensures Decide(c, t, search, fetch) == Refuse(fetch.err)
    ensures Count(CallTrace(c, t, query, search, fetch), Notification) == 0
    ensures var user := FirstUser(c, t.opts, search);
            TypeOf(t.callback) == FunctionT
            ==> CallTrace(c, t, query, search, fetch)
                == Prelude(query) + [FetchMembership(t.opts, Get(Obj(user), "dn")),
                                    CallbackError(fetch.err), Reject(fetch.err)]
  {
    ChannelsFireOnce(c, t, query, search, fetch);
  }

  /** A call `findUser("jsmith")` whose search returns one record and whose options
      ask for no membership: the query filters on "jsmith" with subtree scope, and the
      projected user is emitted and then resolved, with no `groups`. */
  lemma PlainLookupScenario(c: Collaborators, record: Value, fetch: FetchOutcome)
    requires !c.includeGroupMembershipFor(Undefined, "user")
    ensures var trace := FindUserTrace(c, SearchOutcome(Undefined, Some([record])), fetch,
                                       Str("jsmith"), Undefined, Undefined, Undefined);
            var user := Obj(c.newUser(c.pickAttributes(record, c.defaultUserAttributes)));
            && |trace| == 4
            && trace[0] == UpdateBaseDn("user")
            && trace[1].Search?
            && trace[1].query["filter"] == c.userQueryFilter(Str("jsmith"))
            && trace[1].query["scope"] == Str("sub")
            && trace[1].query["attributes"]
               == c.joinAttributes(Or(c.defaultUserAttributes, Arr([])), c.requiredAttributes(Undefined))
            && trace[2..] == [Emit("user", user), Resolve(user)]
  {
  }

  /** `findUser("ghost", true, cb)` with no record found: no membership lookup despite
      the flag, no notification, and `{}` on the handler and the promise. */
  lemma GhostLookupScenario(c: Collaborators, fetch: FetchOutcome, handler: nat)
    ensures FindUserTrace(c, SearchOutcome(Undefined, Some([])), fetch, Str("ghost"), Bool(true), Func(handler), Undefined)
            == [UpdateBaseDn("user"), Search(EffectiveQuery(c, Undefined, Str("ghost"))),
                CallbackResult(EmptyObject), Resolve(EmptyObject)]
  {
  }
}
