/** The collaborators `findUser` calls but whose bodies are not part of this model.
    Each is a parameter: every property proved below holds whatever they compute. */
module Externals {
  import opened JsValues

  datatype Collaborators = Collaborators(
    /** `getUserQueryFilter.call(self, username)` */
    userQueryFilter: Value -> Value,
    /** `joinAttributes(requested, required)` */
    joinAttributes: (Value, Value) -> Value,
    /** `getRequiredLdapAttributesForUser(opts)` */
    requiredAttributes: Value -> Value,
    /** `defaultAttributes.user`, a configuration value */
    defaultUserAttributes: Value,
    /** `pickAttributes(record, attributes)` */
    pickAttributes: (Value, Value) -> Value,
    /** the own properties of `new User(picked)` */
    newUser: Value -> map<string, Value>,
    /** `includeGroupMembershipFor(opts, kind)`, read for its truthiness */
    includeGroupMembershipFor: (Value, string) -> bool
  )
}
