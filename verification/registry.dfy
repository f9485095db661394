/** The command registry: `commands` (definitions in registration order) and
    `commandNames` (name to index into `commands`). */
module CommandRegistry {
  import opened Js

  /** A stored definition. Callbacks are opaque function references; a
      missing cache is `None` and a missing or falsy context is `Null`. */
  datatype Definition = Definition(execute: nat, context: JsVal, undo: nat, cache: Option<nat>)

  /** The object handed to `register`. A property that was not given is
      `Undefined`; a missing name is `None`. */
  datatype CommandDef = CommandDef(
    name: Option<string>,
    execute: JsVal,
    undo: JsVal,
    cache: JsVal,
    context: JsVal)

  /** `OwnCheckThrew` is the runtime's TypeError from asking `commandNames`
      whether it has a name once a command called "hasOwnProperty" hides the
      method of that name. */
  datatype RegisterError = InsufficientParameters | NotAFunction | OwnCheckThrew | AlreadyRegistered

  /** `commandNames` is a plain object, not a map. Assigning a number to its
      "__proto__" property goes to the prototype setter, which ignores it. */
  const ProtoKey: string := "__proto__"

  /** A command of this name hides the method `commandNames` is asked with. */
  const OwnCheckKey: string := "hasOwnProperty"

  datatype Table = Table(commands: seq<Definition>, names: map<string, nat>)

  /** Every name points at a stored definition, no two names share one, and
      "__proto__" is never an own name. */
  ghost predicate WellFormed(t: Table) {
    && (forall n :: n in t.names ==> t.names[n] < |t.commands|)
    && (forall a, b :: a in t.names && b in t.names && t.names[a] == t.names[b] ==> a == b)
    && ProtoKey !in t.names
  }

  type Registry = t: Table | WellFormed(t) witness Table([], map[])

  const Empty: Registry := Table([], map[])

  /** The register argument, or one of name/execute/undo, is missing. */
  predicate Incomplete(arg: Option<CommandDef>) {
    || arg.None?
    || arg.value.name.None?
    || arg.value.execute.Undefined?
    || arg.value.undo.Undefined?
  }

  /** execute and undo are functions, and so is cache when it is given. */
  predicate CallbacksAreFunctions(d: CommandDef) {
    d.execute.Fn? && d.undo.Fn? && (d.cache.Undefined? || d.cache.Fn?)
  }

  /** The definition stored for a valid argument: cache and context default to null. */
  function Stored(d: CommandDef): Definition
    requires CallbacksAreFunctions(d)
  {
    Definition(d.execute.ref, OrNull(d.context), d.undo.ref,
               if d.cache.Fn? then Some(d.cache.ref) else None)
  }

  /** Asking `commandNames` whether it has a name throws once a command
      called "hasOwnProperty" is registered (src lines 56 and 132). */
  predicate OwnCheckHidden(reg: Registry) {
    OwnCheckKey in reg.names
  }

  /** The definition a name resolves to: `commandNames` is asked whether it
      has the name, and the index it holds selects from `commands`. The
      caller asks only while `OwnCheckHidden` is false. */
  function Lookup(reg: Registry, name: string): (r: Option<Definition>)
    ensures r.Some? <==> name in reg.names
  {
    if name in reg.names then Some(reg.commands[reg.names[name]]) else None
  }

  /** `register(command)`: validation in the source's order, then one
      definition appended and its name mapped to the old length. The name
      "__proto__" gets its definition appended but is never mapped. */
  function Register(reg: Registry, arg: Option<CommandDef>): (r: Result<Registry, RegisterError>)
    ensures r == Err(InsufficientParameters) <==> Incomplete(arg)
    ensures r == Err(NotAFunction) <==> !Incomplete(arg) && !CallbacksAreFunctions(arg.value)
    ensures r == Err(OwnCheckThrew) <==>
              !Incomplete(arg) && CallbacksAreFunctions(arg.value) && OwnCheckHidden(reg)
    ensures r == Err(AlreadyRegistered) <==>
              && !Incomplete(arg) && CallbacksAreFunctions(arg.value) && !OwnCheckHidden(reg)
              && arg.value.name.value in reg.names
    ensures r.Ok? ==>
              && !Incomplete(arg) && CallbacksAreFunctions(arg.value)
              && |r.value.commands| == |reg.commands| + 1
              && r.value.commands[..|reg.commands|] == reg.commands
              && r.value.commands[|reg.commands|] == Stored(arg.value)
              && r.value.names == (if arg.value.name.value == ProtoKey then reg.names
                                   else reg.names[arg.value.name.value := |reg.commands|])
  {
    if Incomplete(arg) then Err(InsufficientParameters)
    else if !CallbacksAreFunctions(arg.value) then Err(NotAFunction)
    else if OwnCheckHidden(reg) then Err(OwnCheckThrew)
    else if arg.value.name.value in reg.names then Err(AlreadyRegistered)
    else
      var name := arg.value.name.value;
      var t := Table(reg.commands + [Stored(arg.value)],
                     if name == ProtoKey then reg.names else reg.names[name := |reg.commands|]);
      assert t.commands[..|reg.commands|] == reg.commands;
      Ok(t)
  }

  /** After a successful registration the new name resolves to the new
      definition, unless it is "__proto__", which never resolves; every other
      name resolves as before. */
  lemma RegisterThenLookup(reg: Registry, arg: Option<CommandDef>, name: string)
    requires Register(reg, arg).Ok?
    ensures name == arg.value.name.value && name != ProtoKey ==>
              Lookup(Register(reg, arg).value, name) == Some(Stored(arg.value))
    ensures name == ProtoKey ==> Lookup(Register(reg, arg).value, name).None?
    ensures name != arg.value.name.value ==>
              Lookup(Register(reg, arg).value, name) == Lookup(reg, name)
  {
  }

  /** "__proto__" can be registered again and again: every registration
      succeeds as long as the argument is valid and the own-name check works,
      and the name never resolves. */
  lemma ProtoRegistersRepeatedly(reg: Registry, arg: Option<CommandDef>)
    requires !Incomplete(arg) && CallbacksAreFunctions(arg.value) && arg.value.name == Some(ProtoKey)
    requires !OwnCheckHidden(reg)
    ensures Register(reg, arg).Ok?
    ensures Register(Register(reg, arg).value, arg).Ok?
    ensures Lookup(Register(Register(reg, arg).value, arg).value, ProtoKey).None?
  {
  }

  /** Once "hasOwnProperty" is registered, no later registration succeeds. */
  lemma HiddenOwnCheckBlocksRegistration(reg: Registry, arg: Option<CommandDef>)
    requires Register(reg, arg).Ok? && arg.value.name == Some(OwnCheckKey)
    ensures OwnCheckHidden(Register(reg, arg).value)
    ensures forall next :: Register(Register(reg, arg).value, next).Err?
  {
  }
}
