/** The observable effects of one `findUser` call, as an ordered trace, and the
    delivery of an outcome over the three channels: the `'user'` notification, the
    optional completion handler and the promise. */
module Dispatch {
  import opened JsValues

  datatype Event =
    | UpdateBaseDn(kind: string)                  // updateBaseDn(self, kind)
    | Search(query: map<string, Value>)           // search.call(self, localOpts, ...)
    | FetchMembership(opts: Value, dn: Value)     // getGroupMembershipForDN.call(self, opts, dn, ...)
    | Emit(name: string, entity: Value)           // self.emit(name, entity)
    | CallbackError(err: Value)                   // callback(err)
    | CallbackResult(value: Value)                // callback(null, value)
    | CallbackThrew                               // callback was truthy but not callable: TypeError
    | Resolve(value: Value)                       // resolve(value)
    | Reject(err: Value)                          // reject(err)

  datatype Channel = BaseDnUpdate | SearchCall | MembershipCall | Notification | Handler | Deferred

  function ChannelOf(e: Event): Channel {
    match e
    case UpdateBaseDn(_) => BaseDnUpdate
    case Search(_) => SearchCall
    case FetchMembership(_, _) => MembershipCall
    case Emit(_, _) => Notification
    case CallbackError(_) => Handler
    case CallbackResult(_) => Handler
    case CallbackThrew => Handler
    case Resolve(_) => Deferred
    case Reject(_) => Deferred
  }

  /** How many events of a trace travel over channel `ch`. */
  function Count(trace: seq<Event>, ch: Channel): nat {
    if trace == [] then 0
    else (if ChannelOf(trace[0]) == ch then 1 else 0) + Count(trace[1..], ch)
  }

  lemma {:induction false} CountConcat(a: seq<Event>, b: seq<Event>, ch: Channel)
    ensures Count(a + b, ch) == Count(a, ch) + Count(b, ch)
  {
    if a != [] {
      assert (a + b)[1..] == a[1..] + b;
      CountConcat(a[1..], b, ch);
    } else {
      assert a + b == b;
    }
  }

  /** The channel count of a trace of at most one event. */
  function CountOne(t: seq<Event>, ch: Channel): nat {
    if t != [] && ChannelOf(t[0]) == ch then 1 else 0
  }

  lemma CountOfThree(x: seq<Event>, y: seq<Event>, z: seq<Event>, ch: Channel)
    requires |x| <= 1 && |y| <= 1 && |z| <= 1
    ensures Count(x + y + z, ch) == CountOne(x, ch) + CountOne(y, ch) + CountOne(z, ch)
  {
    CountConcat(x + y, z, ch);
    CountConcat(x, y, ch);
    forall t: seq<Event> | t in [x, y, z]
      ensures Count(t, ch) == CountOne(t, ch)
    {
      if t != [] {
        assert t == [t[0]] && t[1..] == [];
      }
    }
  }

  /** The outcome an invocation settles on. `notify` says whether observers hear of it. */
  datatype Settlement = Fulfil(value: Value, notify: bool) | Refuse(err: Value)

  /** Calling a truthy value that is not a function throws, which ends the continuation. */
  predicate Throws(callback: Value) {
    Truthy(callback) && TypeOf(callback) != FunctionT
  }

  /** `if (callback) { callback(...) }`. */
  function HandlerEvents(callback: Value, call: Event): (r: seq<Event>)
    ensures |r| <= 1
  {
    if !Truthy(callback) then []
    else if TypeOf(callback) == FunctionT then [call]
    else [CallbackThrew]
  }

  /** The `'user'` notification, for a success that carries one. */
  function Notice(s: Settlement): (r: seq<Event>)
    ensures |r| <= 1
  {
    if s.Fulfil? && s.notify then [Emit("user", s.value)] else []
  }

  /** What a callable handler is called with: `(err)` or `(null, value)`. */
  function HandlerCall(s: Settlement): Event {
    match s
    case Refuse(e) => CallbackError(e)
    case Fulfil(v, _) => CallbackResult(v)
  }

  /** `reject(err)` or `resolve(value)`, unless the handler threw before it. */
  function Settle(s: Settlement, callback: Value): (r: seq<Event>)
    ensures |r| <= 1
  {
    if Throws(callback) then []
    else match s
      case Refuse(e) => [Reject(e)]
      case Fulfil(v, _) => [Resolve(v)]
  }

  /** Delivery of a settlement: the notification, then the handler, then the promise. */
  function Deliver(s: Settlement, callback: Value): seq<Event> {
    Notice(s) + HandlerEvents(callback, HandlerCall(s)) + Settle(s, callback)
  }

  /** How often delivering `s` uses channel `ch`. */
  function DeliveredCount(s: Settlement, callback: Value, ch: Channel): nat {
    match ch
    case Notification => if s.Fulfil? && s.notify then 1 else 0
    case Handler => if Truthy(callback) then 1 else 0
    case Deferred => if Throws(callback) then 0 else 1
    case _ => 0
  }

  lemma DeliverCount(s: Settlement, callback: Value, ch: Channel)
    ensures Count(Deliver(s, callback), ch) == DeliveredCount(s, callback, ch)
  {
    CountOfThree(Notice(s), HandlerEvents(callback, HandlerCall(s)), Settle(s, callback), ch);
  }

  /** Each channel is used at most once; the promise settles exactly once unless the
      handler threw, and never when it did; only a success notifies. */
  lemma DeliverOnce(s: Settlement, callback: Value)
    ensures forall ch :: Count(Deliver(s, callback), ch) <= 1
    ensures Count(Deliver(s, callback), Deferred) == if Throws(callback) then 0 else 1
    ensures Count(Deliver(s, callback), Handler) == if Truthy(callback) then 1 else 0
    ensures Count(Deliver(s, callback), Notification) == if s.Fulfil? && s.notify then 1 else 0
    ensures Count(Deliver(s, callback), MembershipCall) == 0
    ensures Count(Deliver(s, callback), SearchCall) == 0
    ensures Count(Deliver(s, callback), BaseDnUpdate) == 0
  {
    forall ch: Channel
      ensures Count(Deliver(s, callback), ch) == DeliveredCount(s, callback, ch)
    {
      DeliverCount(s, callback, ch);
    }
  }

  /** The handler and the promise agree: a callable handler receives the error the
      promise rejects with, or the value it resolves with. */
  lemma DeliverAgrees(s: Settlement, callback: Value)
    requires TypeOf(callback) == FunctionT
    ensures s.Refuse? ==> Deliver(s, callback) == [CallbackError(s.err), Reject(s.err)]
    ensures s.Fulfil? && s.notify
            ==> Deliver(s, callback) == [Emit("user", s.value), CallbackResult(s.value), Resolve(s.value)]
    ensures s.Fulfil? && !s.notify
            ==> Deliver(s, callback) == [CallbackResult(s.value), Resolve(s.value)]
  {
  }
}
