/** Construction of the query handed to the directory search, and of the attribute
    list used to project the first record into a user. */
module UserQuery {
  import opened JsValues
  import opened Externals

  /** The own properties of `opts || {}`: the caller's options as a plain map. */
  function CallerOptions(opts: Value): map<string, Value> {
    OwnProps(Or(opts, EmptyObject))
  }

  /** `(opts || {}).attributes`: the attributes the caller asked for, if any. */
  function RequestedAttributes(opts: Value): Value {
    Get(Or(opts, EmptyObject), "attributes")
  }

  /** `(opts || {}).attributes || defaultAttributes.user`: the whitelist for projecting
      a record into a user. */
  function ProjectionAttributes(c: Collaborators, opts: Value): Value {
    Or(RequestedAttributes(opts), c.defaultUserAttributes)
  }

  /** `... || defaultAttributes.user || []`: the base of the attribute list sent to
      the search. */
  function FetchAttributeBase(c: Collaborators, opts: Value): Value {
    Or(ProjectionAttributes(c, opts), Arr([]))
  }

  /** The query sent to the search:
      `_.defaults(_.omit(opts || {}, 'attributes'), {filter, scope: 'sub', attributes})`. */
  function EffectiveQuery(c: Collaborators, opts: Value, username: Value): (q: map<string, Value>)
    // exactly the caller's keys, with `filter`, `scope` and `attributes` always present
    ensures q.Keys == (CallerOptions(opts).Keys - {"attributes"}) + {"filter", "scope", "attributes"}
    // every other key the caller gave a value reaches the search unchanged
    ensures forall k :: k in CallerOptions(opts) && k != "attributes" && Supplied(CallerOptions(opts), k)
                        ==> q[k] == CallerOptions(opts)[k]
    // `filter` and `scope` are defaulted only when the caller left them undefined
    ensures !Supplied(CallerOptions(opts), "filter") ==> q["filter"] == c.userQueryFilter(username)
    ensures !Supplied(CallerOptions(opts), "scope") ==> q["scope"] == Str("sub")
    // `attributes` is always recomputed, whatever the caller passed
    ensures q["attributes"] == c.joinAttributes(FetchAttributeBase(c, opts), c.requiredAttributes(opts))
  {
    Defaults(
      Omit(Or(opts, EmptyObject), "attributes"),
      map[
        "filter" := c.userQueryFilter(username),
        "scope" := Str("sub"),
        "attributes" := c.joinAttributes(FetchAttributeBase(c, opts), c.requiredAttributes(opts))
      ])
  }

  /** The attribute list falls back from the caller's list to the configured default
      and then to `[]`; a caller list is used even when it is empty (`[]` is truthy). */
  lemma FetchAttributeFallback(c: Collaborators, opts: Value)
    ensures Truthy(RequestedAttributes(opts)) ==> FetchAttributeBase(c, opts) == RequestedAttributes(opts)
    ensures !Truthy(RequestedAttributes(opts)) && Truthy(c.defaultUserAttributes)
            ==> FetchAttributeBase(c, opts) == c.defaultUserAttributes
    ensures !Truthy(RequestedAttributes(opts)) && !Truthy(c.defaultUserAttributes)
            ==> FetchAttributeBase(c, opts) == Arr([])
    ensures RequestedAttributes(opts).Arr? ==> FetchAttributeBase(c, opts) == RequestedAttributes(opts)
  {
  }

  /** The query depends on the caller's `attributes` only through the merged list:
      two option objects that agree on every other key and on the merged list give
      the same query. */
  lemma RawAttributesNeverSent(c: Collaborators, props1: map<string, Value>, props2: map<string, Value>, username: Value)
    requires props1 - {"attributes"} == props2 - {"attributes"}
    requires c.joinAttributes(FetchAttributeBase(c, Obj(props1)), c.requiredAttributes(Obj(props1)))
          == c.joinAttributes(FetchAttributeBase(c, Obj(props2)), c.requiredAttributes(Obj(props2)))
    ensures EffectiveQuery(c, Obj(props1), username) == EffectiveQuery(c, Obj(props2), username)
  {
  }
}
