/** Resolution of the loosely typed positional call
    `findUser(opts, username, includeMembership, callback)`. Four rules inspect
    `typeof` of the arguments and shift them between the four slots, one after
    the other; nothing is ever rejected. */
module ArgumentNormalizer {
  import opened JsValues

  /** The four positional parameters after normalisation. */
  datatype CallTuple = CallTuple(opts: Value, username: Value, includeMembership: Value, callback: Value)

  /** Slot-by-slot description of where each argument ends up: the reference
      against which the step-by-step rules are proved. */
  function Resolution(opts: Value, username: Value, includeMembership: Value, callback: Value): (t: CallTuple)
    // the membership flag is never left holding a function
    ensures TypeOf(t.includeMembership) != FunctionT
    // a string in the first slot is always the identifier, and there are no options
    ensures TypeOf(opts) == StringT ==> t.opts == Undefined && t.username == opts
    // a boolean in the identifier slot becomes the flag; the options value is copied
    // into the identifier slot unless it is a string
    ensures TypeOf(username) == BooleanT ==> t.includeMembership == username
    ensures TypeOf(username) == BooleanT && TypeOf(opts) != StringT ==> t.opts == opts && t.username == opts
    // a handler in the identifier slot: there are no options, and the first argument is
    // the identifier, or the flag when it is a boolean
    ensures TypeOf(username) == FunctionT ==> t.opts == Undefined
    ensures TypeOf(username) == FunctionT && TypeOf(opts) != BooleanT ==> t.username == opts
    ensures TypeOf(username) == FunctionT && TypeOf(opts) == BooleanT
            ==> t.username == Undefined && t.includeMembership == opts
    // a handler in the third slot clears the flag, unless a boolean later refills it
    ensures TypeOf(includeMembership) == FunctionT && TypeOf(username) != BooleanT
            && !(TypeOf(username) == FunctionT && TypeOf(opts) == BooleanT)
            ==> t.includeMembership == Undefined
    // a handler in the second slot leaves a non-function flag where it was
    ensures TypeOf(username) == FunctionT && TypeOf(opts) != BooleanT && TypeOf(includeMembership) != FunctionT
            ==> t.includeMembership == includeMembership
    // an argument list already in canonical form passes through untouched
    ensures TypeOf(opts) != StringT && TypeOf(username) == StringT && TypeOf(includeMembership) != FunctionT
            ==> t == CallTuple(opts, username, includeMembership, callback)
    // the handler is the function found in the second, else the third, else the fourth slot
    ensures TypeOf(username) == FunctionT ==> t.callback == username
    ensures TypeOf(username) != FunctionT && TypeOf(includeMembership) == FunctionT ==> t.callback == includeMembership
    ensures TypeOf(username) != FunctionT && TypeOf(includeMembership) != FunctionT ==> t.callback == callback
  {
    var flag := if TypeOf(includeMembership) == FunctionT then Undefined else includeMembership;
    var handler :=
      if TypeOf(username) == FunctionT then username
      else if TypeOf(includeMembership) == FunctionT then includeMembership
      else callback;
    if TypeOf(username) == FunctionT then
      // the handler sat in the identifier slot: the first argument moves to the identifier,
      // unless it is a boolean, which becomes the flag and leaves the identifier undefined
      if TypeOf(opts) == BooleanT then CallTuple(Undefined, Undefined, opts, handler)
      else CallTuple(Undefined, opts, flag, handler)
    else if TypeOf(opts) == StringT then
      CallTuple(Undefined, opts, if TypeOf(username) == BooleanT then username else flag, handler)
    else if TypeOf(username) == BooleanT then
      // a boolean identifier is the flag; the options object is copied into the identifier slot
      CallTuple(opts, opts, username, handler)
    else
      CallTuple(opts, username, flag, handler)
  }

  /** The four reassignment rules, applied in the order the source applies them. */
  method NormalizeArguments(opts: Value, username: Value, includeMembership: Value, callback: Value)
    returns (t: CallTuple)
    ensures t == Resolution(opts, username, includeMembership, callback)
  {
    var o, u, i, c := opts, username, includeMembership, callback;
    if TypeOf(i) == FunctionT {
      c := i;
      i := Undefined;
    }
    if TypeOf(u) == FunctionT {
      c := u;
      u := o;
      o := Undefined;
    }
    if TypeOf(u) == BooleanT {
      i := u;
      u := o;
    }
    if TypeOf(o) == StringT {
      u := o;
      o := Undefined;
    }
    t := CallTuple(o, u, i, c);
  }

  /** The documented call shapes resolve to the same canonical tuple. */
  lemma DocumentedShapes(opts: Value, id: string, flag: bool, handler: nat)
    requires TypeOf(opts) == ObjectT
    ensures Resolution(opts, Str(id), Bool(flag), Func(handler))
            == CallTuple(opts, Str(id), Bool(flag), Func(handler))
    ensures Resolution(opts, Str(id), Func(handler), Undefined)
            == CallTuple(opts, Str(id), Undefined, Func(handler))
    ensures Resolution(opts, Str(id), Undefined, Undefined)
            == CallTuple(opts, Str(id), Undefined, Undefined)
    ensures Resolution(Str(id), Bool(flag), Func(handler), Undefined)
            == CallTuple(Undefined, Str(id), Bool(flag), Func(handler))
    ensures Resolution(Str(id), Func(handler), Undefined, Undefined)
            == CallTuple(Undefined, Str(id), Undefined, Func(handler))
    ensures Resolution(Str(id), Bool(flag), Undefined, Undefined)
            == CallTuple(Undefined, Str(id), Bool(flag), Undefined)
    ensures Resolution(Str(id), Undefined, Undefined, Undefined)
            == CallTuple(Undefined, Str(id), Undefined, Undefined)
  {
  }

  /** The permissive coercions of shapes that are not documented: an options object
      followed by a flag is also taken as the identifier, and an options object
      followed only by a handler becomes the identifier with no options. */
  lemma UndocumentedShapes(opts: Value, flag: bool, handler: nat)
    requires opts.Obj?
    ensures Resolution(opts, Bool(flag), Func(handler), Undefined)
            == CallTuple(opts, opts, Bool(flag), Func(handler))
    ensures Resolution(opts, Func(handler), Undefined, Undefined)
            == CallTuple(Undefined, opts, Undefined, Func(handler))
    ensures Resolution(Bool(flag), Func(handler), Undefined, Undefined)
            == CallTuple(Undefined, Undefined, Bool(flag), Func(handler))
  {
  }
}
