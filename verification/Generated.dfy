/** The code the macros generate for a role and its performance, as data, and what running it does. */
module Generated {
  import opened Types
  import opened Signatures

  /** Argument values and results are opaque; the state is the actor's. */
  type Val(==, !new)
  type State(==, !new)

  /** What a method is called with. */
  datatype Argument = TheContext | Given(v: Val)

  /** The methods as written: name, state and arguments to new state and result. */
  type Methods = (Name, State, seq<Argument>) -> (State, Val)

  /** The case conversions: a variant's name, and the renamed handler's. Only distinctness matters. */
  datatype Naming = Naming(variant: Name -> Name, handler: Name -> Name)

  // ---- lookup by name ----

  function Find<T(==)>(keys: seq<T>, k: T): (i: nat)
    ensures i <= |keys| && (i < |keys| ==> keys[i] == k)
    ensures forall j :: 0 <= j < i ==> keys[j] != k
  {
    if keys == [] || keys[0] == k then 0 else 1 + Find(keys[1..], k)
  }

  ghost predicate AllDistinct<T(!new)>(keys: seq<T>) {
    forall i, j :: 0 <= i < j < |keys| ==> keys[i] != keys[j]
  }

  lemma FindAt<T(!new)>(keys: seq<T>, i: nat)
    requires AllDistinct(keys) && i < |keys|
    ensures Find(keys, keys[i]) == i
  {}

  // ---- the generated code ----

  /** An identifier in a generated pattern or call. */
  datatype Ident = ContextIdent | Numbered(n: nat)

  /** The shell's method: packs its parameters, named in `tuple`, into a payload variant. */
  datatype Sender = Sender(ident: Name, params: seq<Name>, tuple: seq<Name>, variant: Name, result: Ty)

  /** A match arm of the dispatcher: `Variant((binds)) => Return::Variant(self.handler(call))`. */
  datatype Arm = Arm(variant: Name, binds: seq<Ident>, handler: Name, call: seq<Ident>, awaits: bool)

  datatype Variant = Variant(name: Name, types: seq<Ty>)

  function Numbers(n: nat): seq<Ident> {
    seq(n, i requires 0 <= i < n => Numbered(i))
  }

  /** payload_pattern: one name for each parameter but the receiver and the context. */
  function PayloadPattern(sig: Sig): seq<Ident>
    requires IsMethod(sig)
  {
    var parameters := if HasContext(sig.inputs) then |sig.inputs| - 1 else |sig.inputs|;
    Numbers(parameters - 1)
  }

  function CallPattern(sig: Sig): seq<Ident>
    requires IsMethod(sig)
  {
    if HasContext(sig.inputs) then [ContextIdent] + PayloadPattern(sig) else PayloadPattern(sig)
  }

  /** dispatch_case */
  function DispatchCase(nm: Naming, sig: Sig): Arm
    requires IsMethod(sig)
  {
    Arm(nm.variant(sig.ident), PayloadPattern(sig), nm.handler(sig.ident), CallPattern(sig), sig.isAsync)
  }

  /** create_sending_method */
  function SendingMethod(nm: Naming, sig: Sig): Sender
    requires IsMethod(sig)
  {
    var params := InputNames(WithoutContext(sig.inputs));
    Sender(sig.ident, params, params, nm.variant(sig.ident), ReturnType(sig))
  }

  /** A payload variant of the role, whose signatures had their context removed. */
  function PayloadVariant(nm: Naming, roleSig: Sig): Variant {
    Variant(nm.variant(roleSig.ident), InputTypes(roleSig.inputs))
  }

  /** The methods of a performance that Rust accepts. */
  ghost predicate Accepted(nm: Naming, sigs: seq<Sig>) {
    && (forall sig <- sigs :: IsMethod(sig) && AllDistinct(InputNames(sig.inputs)))
    && (forall i, j :: 0 <= i < j < |sigs| ==> nm.variant(sigs[i].ident) != nm.variant(sigs[j].ident))
    && (forall i, j :: 0 <= i < j < |sigs| ==> nm.handler(sigs[i].ident) != nm.handler(sigs[j].ident))
  }

  function Arms(nm: Naming, sigs: seq<Sig>): seq<Arm>
    requires forall sig <- sigs :: IsMethod(sig)
  {
    seq(|sigs|, i requires 0 <= i < |sigs| => DispatchCase(nm, sigs[i]))
  }

  /** A renamed handler: its name, the method whose body it has, and whether calling it yields a future. */
  datatype Renamed = Renamed(name: Name, original: Name, isAsync: bool)

  function Handlers(nm: Naming, sigs: seq<Sig>): seq<Renamed> {
    seq(|sigs|, i requires 0 <= i < |sigs| => Renamed(nm.handler(sigs[i].ident), sigs[i].ident, sigs[i].isAsync))
  }

  // ---- running it ----

  /** A payload or return payload value. */
  datatype Message = Message(variant: Name, values: seq<Val>)
  datatype ReturnMessage = ReturnMessage(variant: Name, value: Val)

  /** Calling the shell's method: the tuple's names are looked up among the parameters. */
  function RunSender(s: Sender, args: seq<Val>): Option<Message>
    requires |args| == |s.params|
  {
    if forall i :: 0 <= i < |s.tuple| ==> Find(s.params, s.tuple[i]) < |args| then
      Some(Message(s.variant, seq(|s.tuple|, i requires 0 <= i < |s.tuple| => args[Find(s.params, s.tuple[i])])))
    else None
  }

  /** The first arm that matches. */
  function SelectArm(arms: seq<Arm>, m: Message): Option<Arm> {
    if arms == [] then None
    else if arms[0].variant == m.variant && |arms[0].binds| == |m.values| then Some(arms[0])
    else SelectArm(arms[1..], m)
  }

  function Evaluate(binds: seq<Ident>, values: seq<Val>, x: Ident): Option<Argument>
    requires |binds| == |values|
  {
    if x.ContextIdent? then Some(TheContext)
    else if Find(binds, x) < |values| then Some(Given(values[Find(binds, x)]))
    else None
  }

  function EvaluateAll(binds: seq<Ident>, values: seq<Val>, xs: seq<Ident>): Option<seq<Argument>>
    requires |binds| == |values|
  {
    if xs == [] then Some([])
    else
      var first := Evaluate(binds, values, xs[0]);
      var rest := EvaluateAll(binds, values, xs[1..]);
      if first.Some? && rest.Some? then Some([first.value] + rest.value) else None
  }

  /** The renamed handler of a name. */
  function Resolve(handlers: seq<Renamed>, name: Name): Option<Renamed> {
    if handlers == [] then None
    else if handlers[0].name == name then Some(handlers[0])
    else Resolve(handlers[1..], name)
  }

  /** The dispatcher up to its return path: the new state and the return payload. */
  function Dispatch(nm: Naming, sigs: seq<Sig>, methods: Methods, st: State, m: Message): Option<(State, ReturnMessage)>
    requires forall sig <- sigs :: IsMethod(sig)
  {
    match SelectArm(Arms(nm, sigs), m)
    case None => None
    case Some(arm) =>
      if |arm.binds| != |m.values| then None
      else
        match (EvaluateAll(arm.binds, m.values, arm.call), Resolve(Handlers(nm, sigs), arm.handler))
        case (Some(args), Some(handler)) =>
          // A future is no value until it is awaited, and a value cannot be awaited.
          if handler.isAsync != arm.awaits then None
          else
            var (st', v) := methods(handler.original, st, args);
            Some((st', ReturnMessage(arm.variant, v)))
        case _ => None
  }

  // ---- the Accepts and Emits impls ----

  /** into_grouping_map().reduce: the first method with these parameter types, and how many have them. */
  function Reduce(nm: Naming, sigs: seq<Sig>): map<seq<Ty>, (Name, nat)> {
    if sigs == [] then map[]
    else
      var last := sigs[|sigs| - 1];
      var before := Reduce(nm, sigs[..|sigs| - 1]);
      var types := InputTypes(last.inputs);
      before[types := if types in before then (before[types].0, before[types].1 + 1)
                      else (nm.variant(last.ident), 1)]
  }

  /** create_from_impls */
  function AcceptsImpls(nm: Naming, sigs: seq<Sig>): map<seq<Ty>, Name> {
    var groups := Reduce(nm, sigs);
    map types | types in groups && types != [] && groups[types].1 == 1 :: groups[types].0
  }

  /** create_output_from_impls: the variants of each return type, in order. */
  function EmitsImpls(nm: Naming, sigs: seq<Sig>): map<Ty, seq<Name>> {
    if sigs == [] then map[]
    else
      var last := sigs[|sigs| - 1];
      var before := EmitsImpls(nm, sigs[..|sigs| - 1]);
      var ty := ReturnType(last);
      before[ty := (if ty in before then before[ty] else []) + [nm.variant(last.ident)]]
  }

  /** from_return_payload; None is the unimplemented! arm. */
  function FromReturn(impls: map<Ty, seq<Name>>, ty: Ty, r: ReturnMessage): Option<Val>
    requires ty in impls
  {
    if r.variant in impls[ty] then Some(r.value) else None
  }

  // ---- the direct call ----

  function Givens(args: seq<Val>): seq<Argument> {
    seq(|args|, i requires 0 <= i < |args| => Given(args[i]))
  }

  /** What the method is written to be called with: the context first if it is declared. */
  function DirectArguments(sig: Sig, args: seq<Val>): seq<Argument> {
    (if HasContext(sig.inputs) then [TheContext] else []) + Givens(args)
  }
}
