/** A call through the generated shell means the same as calling the method. */
module MacroProofs {
  import opened Types
  import opened Signatures
  import opened Generated

  // ---- sending ----

  /** The names left when the context is removed are all the names, or all but the first. */
  lemma ContextNames(sig: Sig)
    requires IsMethod(sig)
    ensures |InputNames(sig.inputs)| == |sig.inputs| - 1
    ensures var names := InputNames(sig.inputs);
            InputNames(WithoutContext(sig.inputs)) == if HasContext(sig.inputs) then names[1..] else names
    ensures |InputNames(WithoutContext(sig.inputs))| == |PayloadPattern(sig)|
  {
    MethodInputs(sig);
    StrippedIsMethod(sig);
    MethodInputs(Stripped(sig));
    if HasContext(sig.inputs) {
      assert WithoutContext(sig.inputs)[1..] == sig.inputs[1..][1..];
    }
  }

  /** The sent payload carries the arguments, in order. */
  lemma Sends(nm: Naming, sig: Sig, args: seq<Val>)
    requires IsMethod(sig) && AllDistinct(InputNames(sig.inputs)) && |args| == |PayloadPattern(sig)|
    ensures |SendingMethod(nm, sig).params| == |args|
    ensures RunSender(SendingMethod(nm, sig), args) == Some(Message(nm.variant(sig.ident), args))
  {
    ContextNames(sig);
    var s := SendingMethod(nm, sig);
    forall i | 0 <= i < |args| ensures Find(s.params, s.tuple[i]) == i { FindAt(s.params, i); }
    var sent := RunSender(s, args);
    assert sent.Some? && sent.value.values == args;
  }

  // ---- dispatching ----

  lemma {:induction false} SelectsAt(arms: seq<Arm>, m: Message, i: nat)
    requires i < |arms| && arms[i].variant == m.variant && |arms[i].binds| == |m.values|
    requires forall j :: 0 <= j < i ==> arms[j].variant != m.variant
    ensures SelectArm(arms, m) == Some(arms[i])
  {
    if i > 0 { SelectsAt(arms[1..], m, i - 1); }
  }

  lemma {:induction false} ResolvesAt(handlers: seq<Renamed>, i: nat)
    requires i < |handlers| && forall j :: 0 <= j < i ==> handlers[j].name != handlers[i].name
    ensures Resolve(handlers, handlers[i].name) == Some(handlers[i])
  {
    if i > 0 { ResolvesAt(handlers[1..], i - 1); }
  }

  /** The names from the k-th on evaluate to the values from the k-th on. */
  lemma {:induction false} EvaluatesNumbers(values: seq<Val>, k: nat)
    requires k <= |values|
    ensures EvaluateAll(Numbers(|values|), values, Numbers(|values|)[k..]) == Some(Givens(values)[k..])
    decreases |values| - k
  {
    var binds := Numbers(|values|);
    if k < |values| {
      EvaluatesNumbers(values, k + 1);
      FindAt(binds, k);
      assert binds[k] == Numbered(k);
      assert binds[k..][1..] == binds[k + 1..];
      assert Givens(values)[k..] == [Given(values[k])] + Givens(values)[k + 1..];
    } else {
      assert binds[k..] == [] && Givens(values)[k..] == [];
    }
  }

  lemma EvaluatesCall(sig: Sig, values: seq<Val>)
    requires IsMethod(sig) && |values| == |PayloadPattern(sig)|
    ensures EvaluateAll(PayloadPattern(sig), values, CallPattern(sig)) == Some(DirectArguments(sig, values))
  {
    EvaluatesNumbers(values, 0);
    var binds := Numbers(|values|);
    assert binds[0..] == binds && Givens(values)[0..] == Givens(values);
    if HasContext(sig.inputs) {
      assert CallPattern(sig)[1..] == binds;
    } else {
      assert DirectArguments(sig, values) == Givens(values);
    }
  }

  /** A payload of method i runs method i, with the context inserted exactly if it is declared. */
  lemma Dispatches(nm: Naming, sigs: seq<Sig>, i: nat, methods: Methods, st: State, values: seq<Val>)
    requires Accepted(nm, sigs) && i < |sigs| && |values| == |PayloadPattern(sigs[i])|
    ensures var (st', v) := methods(sigs[i].ident, st, DirectArguments(sigs[i], values));
            Dispatch(nm, sigs, methods, st, Message(nm.variant(sigs[i].ident), values))
            == Some((st', ReturnMessage(nm.variant(sigs[i].ident), v)))
  {
    SelectsAt(Arms(nm, sigs), Message(nm.variant(sigs[i].ident), values), i);
    ResolvesAt(Handlers(nm, sigs), i);
    EvaluatesCall(sigs[i], values);
  }

  // ---- replies ----

  /** The group of a return type lists exactly the variants of the methods that return it. */
  lemma {:induction false} EmitsGroups(nm: Naming, sigs: seq<Sig>, ty: Ty, v: Name)
    ensures (ty in EmitsImpls(nm, sigs) && v in EmitsImpls(nm, sigs)[ty])
       <==> exists sig <- sigs :: ReturnType(sig) == ty && nm.variant(sig.ident) == v
    ensures ty in EmitsImpls(nm, sigs) <==> exists sig <- sigs :: ReturnType(sig) == ty
  {
    if sigs != [] {
      var front, last := sigs[..|sigs| - 1], sigs[|sigs| - 1];
      EmitsGroups(nm, front, ty, v);
      assert forall sig :: sig in sigs <==> sig in front || sig == last;
    }
  }

  /** Converting method i's return payload yields its value for its own return type, and fails for every other. */
  lemma EmitsExactly(nm: Naming, sigs: seq<Sig>, i: nat, ty: Ty, v: Val)
    requires Accepted(nm, sigs) && i < |sigs| && ty in EmitsImpls(nm, sigs)
    ensures FromReturn(EmitsImpls(nm, sigs), ty, ReturnMessage(nm.variant(sigs[i].ident), v))
         == if ty == ReturnType(sigs[i]) then Some(v) else None
  {
    EmitsGroups(nm, sigs, ty, nm.variant(sigs[i].ident));
  }

  // ---- the round trip ----

  /** Call the shell's i-th method, dispatch what it sent, and convert the reply to the Envelope's result type. */
  function ShellCall(nm: Naming, sigs: seq<Sig>, i: nat, methods: Methods, st: State, args: seq<Val>)
    : Option<(State, Val)>
    requires i < |sigs| && forall sig <- sigs :: IsMethod(sig)
  {
    var sender := SendingMethod(nm, sigs[i]);
    if |args| != |sender.params| then None
    else
      match RunSender(sender, args)
      case None => None
      case Some(m) =>
        match Dispatch(nm, sigs, methods, st, m)
        case None => None
        case Some((st', r)) =>
          if sender.result !in EmitsImpls(nm, sigs) then None
          else
            match FromReturn(EmitsImpls(nm, sigs), sender.result, r)
            case None => None
            case Some(v) => Some((st', v))
  }

  /** A call through the shell is the direct call: same method, same arguments in order, same state and result. */
  lemma ShellCallIsDirectCall(nm: Naming, sigs: seq<Sig>, i: nat, methods: Methods, st: State, args: seq<Val>)
    requires Accepted(nm, sigs) && i < |sigs| && |args| == |InputNames(WithoutContext(sigs[i].inputs))|
    ensures ShellCall(nm, sigs, i, methods, st, args)
         == Some(methods(sigs[i].ident, st, DirectArguments(sigs[i], args)))
  {
    hide RunSender, Dispatch, EmitsImpls, FromReturn;
    hide InputNames, WithoutContext, AllDistinct, DirectArguments, IsMethod;
    var sig := sigs[i];
    assert sig in sigs;
    ContextNames(sig);
    Sends(nm, sig, args);
    Dispatches(nm, sigs, i, methods, st, args);
    EmitsGroups(nm, sigs, ReturnType(sig), nm.variant(sig.ident));
    var (st', v) := methods(sig.ident, st, DirectArguments(sig, args));
    EmitsExactly(nm, sigs, i, ReturnType(sig), v);
  }

  // ---- the same on the types as written ----

  /** A second parameter that is 'static, or no borrow, is the caller's: it is sent, and handed to the method first. */
  lemma ArgumentIsPassed(nm: Naming, sigs: seq<Sig>, i: nat, methods: Methods, st: State, args: seq<Val>,
                         p: Name, ty: Ty)
    requires Accepted(nm, sigs) && i < |sigs| && |sigs[i].inputs| > 1 && sigs[i].inputs[1] == Typed(p, ty)
    requires (exists target :: ty == Borrow(Static, target)) || !ty.Borrow?
    requires |args| == |sigs[i].inputs| - 1
    ensures |InputNames(sigs[i].inputs)| == |args| == |InputTypes(sigs[i].inputs)|
    ensures SendingMethod(nm, sigs[i]).params == InputNames(sigs[i].inputs) && InputNames(sigs[i].inputs)[0] == p
    ensures PayloadVariant(nm, Stripped(sigs[i])).types == InputTypes(sigs[i].inputs)
    ensures InputTypes(sigs[i].inputs)[0] == ty
    ensures Givens(args)[0] == Given(args[0])
    ensures ShellCall(nm, sigs, i, methods, st, args) == Some(methods(sigs[i].ident, st, Givens(args)))
  {
    var sig := sigs[i];
    assert sig in sigs;
    OtherStays(sig.inputs, p, ty);
    MethodInputs(sig);
    TypedInputs(sig.inputs[1..]);
    ShellCallIsDirectCall(nm, sigs, i, methods, st, args);
    assert DirectArguments(sig, args) == Givens(args);
  }

  /** A second parameter that is any other borrow is not sent: the method gets the context, then what was sent. */
  lemma ContextIsInserted(nm: Naming, sigs: seq<Sig>, i: nat, methods: Methods, st: State, args: seq<Val>,
                          p: Name, lifetime: Lifetime, target: TypeName)
    requires Accepted(nm, sigs) && i < |sigs| && |sigs[i].inputs| > 1
    requires sigs[i].inputs[1] == Typed(p, Borrow(lifetime, target)) && lifetime != Static
    requires |args| == |sigs[i].inputs| - 2
    ensures |InputNames(sigs[i].inputs)| == |args| + 1 == |InputTypes(sigs[i].inputs)|
    ensures SendingMethod(nm, sigs[i]).params == InputNames(sigs[i].inputs)[1..] && InputNames(sigs[i].inputs)[0] == p
    ensures PayloadVariant(nm, Stripped(sigs[i])).types == InputTypes(sigs[i].inputs)[1..]
    ensures ShellCall(nm, sigs, i, methods, st, args) == Some(methods(sigs[i].ident, st, [TheContext] + Givens(args)))
  {
    var sig := sigs[i];
    assert sig in sigs;
    assert lifetime == Elided || exists name :: lifetime == Named(name) by {
      match lifetime case Named(name) => assert lifetime == Named(name); case _ =>
    }
    BorrowGoes(sig.inputs, p, lifetime, target);
    MethodInputs(sig);
    TypedInputs(sig.inputs[1..]);
    ContextNames(sig);
    StrippedIsMethod(sig);
    MethodInputs(Stripped(sig));
    assert Stripped(sig).inputs[1..] == sig.inputs[1..][1..];
    ShellCallIsDirectCall(nm, sigs, i, methods, st, args);
  }

  /** A method with no other parameter than its receiver is called with nothing. */
  lemma NothingIsPassed(nm: Naming, sigs: seq<Sig>, i: nat, methods: Methods, st: State)
    requires Accepted(nm, sigs) && i < |sigs| && |sigs[i].inputs| == 1
    ensures SendingMethod(nm, sigs[i]).params == [] && PayloadVariant(nm, Stripped(sigs[i])).types == []
    ensures ShellCall(nm, sigs, i, methods, st, []) == Some(methods(sigs[i].ident, st, []))
  {
    assert sigs[i] in sigs;
    NothingGoes(sigs[i].inputs);
    MethodInputs(sigs[i]);
    ShellCallIsDirectCall(nm, sigs, i, methods, st, []);
    assert DirectArguments(sigs[i], []) == [];
  }

  /** The Envelope's result type is the one written, or the unit type, and a reply converts to it alone. */
  lemma ResultAsWritten(nm: Naming, sigs: seq<Sig>, i: nat, ty: Ty, v: Val)
    requires Accepted(nm, sigs) && i < |sigs|
    ensures var written := if sigs[i].output == NoOutput then Unit else sigs[i].output.ty;
            && SendingMethod(nm, sigs[i]).result == written && written in EmitsImpls(nm, sigs)
            && (ty in EmitsImpls(nm, sigs) ==>
                  FromReturn(EmitsImpls(nm, sigs), ty, ReturnMessage(nm.variant(sigs[i].ident), v))
                  == if ty == written then Some(v) else None)
  {
    assert sigs[i] in sigs;
    EmitsGroups(nm, sigs, ReturnType(sigs[i]), nm.variant(sigs[i].ident));
    if ty in EmitsImpls(nm, sigs) { EmitsExactly(nm, sigs, i, ty, v); }
  }

  // ---- the role of a canonical performance ----

  function RoleSigs(sigs: seq<Sig>): seq<Sig> {
    seq(|sigs|, i requires 0 <= i < |sigs| => Stripped(sigs[i]))
  }

  /** The role's payload variants have the names and field counts the senders and arms of the performance use. */
  lemma RoleFitsPerformance(nm: Naming, sigs: seq<Sig>, i: nat)
    requires Accepted(nm, sigs) && i < |sigs|
    ensures var variant := PayloadVariant(nm, RoleSigs(sigs)[i]);
            && variant.name == SendingMethod(nm, sigs[i]).variant == DispatchCase(nm, sigs[i]).variant
            && |variant.types| == |SendingMethod(nm, sigs[i]).tuple| == |DispatchCase(nm, sigs[i]).binds|
            && variant.types == InputTypes(SenderSig(sigs[i]).inputs)
            && ReturnType(RoleSigs(sigs)[i]) == SendingMethod(nm, sigs[i]).result
  {
    var sig := sigs[i];
    assert sig in sigs;
    ContextNames(sig);
    StrippedIsMethod(sig);
    MethodInputs(Stripped(sig));
    assert SenderSig(sig).inputs[1..] == WithoutContext(sig.inputs)[1..];
  }

  // ---- Accepts ----

  /** How many methods take exactly these parameter types. */
  function CountOf(sigs: seq<Sig>, types: seq<Ty>): nat {
    if sigs == [] then 0
    else CountOf(sigs[..|sigs| - 1], types) + if InputTypes(sigs[|sigs| - 1].inputs) == types then 1 else 0
  }

  lemma {:induction false} ReduceCounts(nm: Naming, sigs: seq<Sig>, types: seq<Ty>)
    ensures types in Reduce(nm, sigs) <==> CountOf(sigs, types) > 0
    ensures types in Reduce(nm, sigs) ==>
              Reduce(nm, sigs)[types].1 == CountOf(sigs, types)
              && exists sig <- sigs ::
                   InputTypes(sig.inputs) == types && nm.variant(sig.ident) == Reduce(nm, sigs)[types].0
  {
    if sigs != [] {
      var front, last := sigs[..|sigs| - 1], sigs[|sigs| - 1];
      ReduceCounts(nm, front, types);
      assert forall sig :: sig in sigs <==> sig in front || sig == last;
    }
  }

  lemma {:induction false} CountTwo(sigs: seq<Sig>, types: seq<Ty>, i: nat, j: nat)
    requires i < j < |sigs| && InputTypes(sigs[i].inputs) == types == InputTypes(sigs[j].inputs)
    ensures CountOf(sigs, types) >= 2
  {
    var front := sigs[..|sigs| - 1];
    if j < |front| { CountTwo(front, types, i, j); } else { CountSome(front, types, i); }
  }

  lemma {:induction false} CountSome(sigs: seq<Sig>, types: seq<Ty>, i: nat)
    requires i < |sigs| && InputTypes(sigs[i].inputs) == types
    ensures CountOf(sigs, types) >= 1
  {
    if i < |sigs| - 1 { CountSome(sigs[..|sigs| - 1], types, i); }
  }

  lemma {:induction false} CountAtMostOne(sigs: seq<Sig>, types: seq<Ty>, i: nat)
    requires i < |sigs| && forall j :: 0 <= j < |sigs| && j != i ==> InputTypes(sigs[j].inputs) != types
    ensures CountOf(sigs, types) <= 1
  {
    var front := sigs[..|sigs| - 1];
    if i < |front| {
      CountAtMostOne(front, types, i);
    } else {
      CountNone(front, types);
    }
  }

  lemma {:induction false} CountNone(sigs: seq<Sig>, types: seq<Ty>)
    requires forall sig <- sigs :: InputTypes(sig.inputs) != types
    ensures CountOf(sigs, types) == 0
  {
    if sigs != [] {
      assert sigs[|sigs| - 1] in sigs;
      CountNone(sigs[..|sigs| - 1], types);
    }
  }

  /** Method i is the only one with these parameter types. */
  predicate OnlyOne(sigs: seq<Sig>, types: seq<Ty>, i: nat) {
    i < |sigs| && InputTypes(sigs[i].inputs) == types
    && forall j :: 0 <= j < |sigs| && j != i ==> InputTypes(sigs[j].inputs) != types
  }

  /** There is an Accepts impl for a parameter list exactly if it is non-empty and one method alone has it. */
  lemma AcceptsExactly(nm: Naming, sigs: seq<Sig>, types: seq<Ty>)
    ensures types in AcceptsImpls(nm, sigs) <==> types != [] && exists i: nat :: OnlyOne(sigs, types, i)
    ensures types in AcceptsImpls(nm, sigs) ==>
              exists i: nat :: OnlyOne(sigs, types, i) && AcceptsImpls(nm, sigs)[types] == nm.variant(sigs[i].ident)
  {
    ReduceCounts(nm, sigs, types);
    if types in AcceptsImpls(nm, sigs) {
      var sig :| sig in sigs && InputTypes(sig.inputs) == types && nm.variant(sig.ident) == Reduce(nm, sigs)[types].0;
      var i :| 0 <= i < |sigs| && sigs[i] == sig;
      forall j | 0 <= j < |sigs| && j != i ensures InputTypes(sigs[j].inputs) != types {
        if InputTypes(sigs[j].inputs) == types {
          CountTwo(sigs, types, if i < j then i else j, if i < j then j else i);
        }
      }
      assert OnlyOne(sigs, types, i);
    }
    if types != [] && exists i: nat :: OnlyOne(sigs, types, i) {
      var i: nat :| OnlyOne(sigs, types, i);
      CountSome(sigs, types, i);
      CountAtMostOne(sigs, types, i);
    }
  }

  /** A bare value sent through Accepts runs the one method of the role that takes it, with it as arguments. */
  lemma AcceptedValueRuns(nm: Naming, sigs: seq<Sig>, types: seq<Ty>, methods: Methods, st: State, values: seq<Val>)
    requires Accepted(nm, sigs) && types in AcceptsImpls(nm, RoleSigs(sigs)) && |values| == |types|
    ensures exists i: nat :: OnlyOne(RoleSigs(sigs), types, i) &&
              var (st', v) := methods(sigs[i].ident, st, DirectArguments(sigs[i], values));
              Dispatch(nm, sigs, methods, st, Message(AcceptsImpls(nm, RoleSigs(sigs))[types], values))
              == Some((st', ReturnMessage(nm.variant(sigs[i].ident), v)))
  {
    AcceptsExactly(nm, RoleSigs(sigs), types);
    var i: nat :| OnlyOne(RoleSigs(sigs), types, i)
             && AcceptsImpls(nm, RoleSigs(sigs))[types] == nm.variant(RoleSigs(sigs)[i].ident);
    RoleFitsPerformance(nm, sigs, i);
    Dispatches(nm, sigs, i, methods, st, values);
  }
}
