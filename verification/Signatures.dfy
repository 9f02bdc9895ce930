/** Method signatures as the macros see them, and the removal of the Context parameter. */
module Signatures {
  type Name(==, !new)
  type TypeName(==, !new)

  datatype Lifetime = Elided | Static | Named(name: Name)

  /** A type as written: a borrow, the Envelope the rewriter wraps results in, or anything else. */
  datatype Ty = Borrow(lifetime: Lifetime, target: TypeName) | Plain(name: TypeName) | Unit | EnvelopeOf(result: Ty)

  datatype Arg = Receiver(mutable: bool) | Typed(pat: Name, ty: Ty)

  datatype Output = NoOutput | Returns(ty: Ty)

  datatype Sig = Sig(ident: Name, isAsync: bool, inputs: seq<Arg>, output: Output)

  /** A reference that is not 'static is taken for the Context. */
  predicate IsContextType(ty: Ty) {
    ty.Borrow? && !ty.lifetime.Static?
  }

  predicate IsContextArg(a: Arg) {
    a.Typed? && IsContextType(a.ty)
  }

  /** has_context_input looks at the second parameter only. */
  predicate HasContext(inputs: seq<Arg>) {
    |inputs| > 1 && IsContextArg(inputs[1])
  }

  function WithoutContext(inputs: seq<Arg>): seq<Arg> {
    if HasContext(inputs) then inputs[..1] + inputs[2..] else inputs
  }

  function Stripped(sig: Sig): Sig {
    sig.(inputs := WithoutContext(sig.inputs))
  }

  /** On the types as written: a second parameter that is 'static, or no borrow at all, is the caller's. */
  lemma OtherStays(inputs: seq<Arg>, p: Name, ty: Ty)
    requires |inputs| > 1 && inputs[1] == Typed(p, ty)
    requires (exists target :: ty == Borrow(Static, target)) || !ty.Borrow?
    ensures WithoutContext(inputs) == inputs
  {}

  /** A second parameter that is any other borrow is the context, and the only one removed. */
  lemma BorrowGoes(inputs: seq<Arg>, p: Name, lifetime: Lifetime, target: TypeName)
    requires |inputs| > 1 && inputs[1] == Typed(p, Borrow(lifetime, target))
    requires lifetime == Elided || exists name :: lifetime == Named(name)
    ensures WithoutContext(inputs) == [inputs[0]] + inputs[2..]
  {
    assert inputs[..1] == [inputs[0]];
  }

  /** Without a second parameter, or with a receiver there, nothing is removed. */
  lemma NothingGoes(inputs: seq<Arg>)
    requires |inputs| <= 1 || inputs[1].Receiver?
    ensures WithoutContext(inputs) == inputs
  {}

  function ReturnType(sig: Sig): Ty {
    match sig.output
    case Returns(ty) => ty
    case NoOutput => Unit
  }

  /** What a signature in a #[performance] must look like: a receiver, then typed parameters. */
  predicate IsMethod(sig: Sig) {
    sig.inputs != [] && sig.inputs[0].Receiver? && forall i :: 1 <= i < |sig.inputs| ==> sig.inputs[i].Typed?
  }

  /** The types of the typed parameters, in order. */
  function InputTypes(inputs: seq<Arg>): seq<Ty> {
    if inputs == [] then []
    else (if inputs[0].Typed? then [inputs[0].ty] else []) + InputTypes(inputs[1..])
  }

  function InputNames(inputs: seq<Arg>): seq<Name> {
    if inputs == [] then []
    else (if inputs[0].Typed? then [inputs[0].pat] else []) + InputNames(inputs[1..])
  }

  lemma {:induction false} TypedInputs(inputs: seq<Arg>)
    requires forall a <- inputs :: a.Typed?
    ensures |InputTypes(inputs)| == |inputs| == |InputNames(inputs)|
    ensures forall i :: 0 <= i < |inputs| ==>
              InputTypes(inputs)[i] == inputs[i].ty && InputNames(inputs)[i] == inputs[i].pat
  {
    if inputs != [] { TypedInputs(inputs[1..]); }
  }

  lemma MethodInputs(sig: Sig)
    requires IsMethod(sig)
    ensures InputTypes(sig.inputs) == InputTypes(sig.inputs[1..])
    ensures InputNames(sig.inputs) == InputNames(sig.inputs[1..])
    ensures |InputTypes(sig.inputs)| == |sig.inputs| - 1 == |InputNames(sig.inputs)|
  {
    TypedInputs(sig.inputs[1..]);
  }

  lemma StrippedIsMethod(sig: Sig)
    requires IsMethod(sig)
    ensures IsMethod(Stripped(sig))
    ensures |Stripped(sig).inputs| == |sig.inputs| - if HasContext(sig.inputs) then 1 else 0
  {}

  /**
   * Removing the context again changes nothing, unless the parameter after it is a non-static reference too:
   * then the second removal takes a parameter the caller must supply.
   */
  lemma RemovalIdempotent(inputs: seq<Arg>)
    ensures WithoutContext(WithoutContext(inputs)) == WithoutContext(inputs)
       <==> !(|inputs| > 2 && IsContextArg(inputs[1]) && IsContextArg(inputs[2]))
  {
    var once := WithoutContext(inputs);
    if HasContext(inputs) {
      assert |once| > 1 ==> once[1] == inputs[2];
      if HasContext(once) { assert |WithoutContext(once)| == |once| - 1; }
    }
  }

  /** The signature of the generated trait method: synchronous, by shared reference, returning an Envelope. */
  function Interface(sig: Sig): Sig {
    var inputs := seq(|sig.inputs|, i requires 0 <= i < |sig.inputs| =>
                        if sig.inputs[i].Receiver? then Receiver(false) else sig.inputs[i]);
    Sig(sig.ident, false, WithoutContext(inputs), Returns(EnvelopeOf(ReturnType(sig))))
  }

  /** The signature create_sending_method gives the shell's own method. */
  function SenderSig(sig: Sig): Sig
    requires sig.inputs != []
  {
    Sig(sig.ident, false, [Receiver(false)] + WithoutContext(sig.inputs)[1..], Returns(EnvelopeOf(ReturnType(sig))))
  }

  /** The trait method as written: a shared receiver, the caller's parameters, and an Envelope of the result. */
  lemma InterfaceAsWritten(ident: Name, isAsync: bool, mutable: bool, context: seq<Arg>, params: seq<Arg>,
                           output: Output)
    requires context == []
             || exists p, lifetime, target :: context == [Typed(p, Borrow(lifetime, target))] && lifetime != Static
    requires forall a <- params :: a.Typed?
    requires context == [] && params != [] ==> !params[0].ty.Borrow? || params[0].ty.lifetime == Static
    ensures var sig := Sig(ident, isAsync, [Receiver(mutable)] + context + params, output);
            var result := if output == NoOutput then Unit else output.ty;
            && SenderSig(sig) == Sig(ident, false, [Receiver(false)] + params, Returns(EnvelopeOf(result)))
            && Interface(sig) == SenderSig(sig)
  {
    var inputs := [Receiver(mutable)] + context + params;
    SharedReceiver(inputs);
    if context == [] {
      assert WithoutContext(inputs) == inputs;
      assert inputs[1..] == params;
    } else {
      assert inputs[1] == context[0] && inputs[2..] == params;
      assert WithoutContext(inputs) == [inputs[0]] + params;
      assert WithoutContext(inputs)[1..] == params;
    }
  }

  lemma SharedReceiver(inputs: seq<Arg>)
    requires inputs != [] && inputs[0].Receiver? && forall i :: 1 <= i < |inputs| ==> inputs[i].Typed?
    ensures var shared := seq(|inputs|, i requires 0 <= i < |inputs| =>
                                if inputs[i].Receiver? then Receiver(false) else inputs[i]);
            shared == [Receiver(false)] + inputs[1..]
            && WithoutContext(shared) == [Receiver(false)] + WithoutContext(inputs)[1..]
  {
    var shared := seq(|inputs|, i requires 0 <= i < |inputs| =>
                        if inputs[i].Receiver? then Receiver(false) else inputs[i]);
    assert shared == [Receiver(false)] + inputs[1..];
  }

  /**
   * For a canonical performance the trait method (context removed by the role and again by the rewriter) is the
   * shell's method (removed once) exactly when no method has two leading non-static reference parameters.
   */
  lemma TraitMatchesShell(sig: Sig)
    requires IsMethod(sig)
    ensures Interface(Stripped(sig)) == SenderSig(sig)
       <==> !(|sig.inputs| > 2 && IsContextArg(sig.inputs[1]) && IsContextArg(sig.inputs[2]))
  {
    StrippedIsMethod(sig);
    var once := WithoutContext(sig.inputs);
    SharedReceiver(once);
    RemovalIdempotent(sig.inputs);
    var twice := WithoutContext(once);
    if [Receiver(false)] + twice[1..] == [Receiver(false)] + once[1..] {
      assert ([Receiver(false)] + twice[1..])[1..] == twice[1..];
      assert ([Receiver(false)] + once[1..])[1..] == once[1..];
      assert twice == [twice[0]] + twice[1..] && once == [once[0]] + once[1..];
    }
  }

  // ---- the removals as the macros perform them, in place ----

  class Signature {
    const ident: Name
    var isAsync: bool
    var inputs: seq<Arg>
    var output: Output

    constructor (sig: Sig)
      ensures Value() == sig
    {
      ident, isAsync, inputs, output := sig.ident, sig.isAsync, sig.inputs, sig.output;
    }

    function Value(): Sig
      reads this
    {
      Sig(ident, isAsync, inputs, output)
    }

    /** remove_context_param */
    method RemoveContextParam()
      modifies this`inputs
      ensures Value() == Stripped(old(Value()))
    {
      if HasContext(inputs) {
        var items := inputs;
        inputs := [];
        items := items[..1] + items[2..];
        inputs := items;
      }
    }

    /** InterfaceRewriter::fold_signature */
    method FoldSignature()
      modifies this
      ensures Value() == Interface(old(Value()))
    {
      var folded: seq<Arg> := [];
      while |folded| < |inputs|
        invariant |folded| <= |inputs| && inputs == old(inputs)
        invariant forall i :: 0 <= i < |folded| ==>
                    folded[i] == if inputs[i].Receiver? then Receiver(false) else inputs[i]
      {
        var a := inputs[|folded|];
        folded := folded + [if a.Receiver? then Receiver(false) else a];
      }
      inputs := folded;
      isAsync := false;
      var oldReturn := if output.Returns? then output.ty else Unit;
      RemoveContextParam();
      output := Returns(EnvelopeOf(oldReturn));
    }
  }

  /** RoleDecl::new rewrites every signature it collected. */
  method StripAll(signatures: array<Signature>)
    requires forall i, j :: 0 <= i < j < signatures.Length ==> signatures[i] != signatures[j]
    modifies set i | 0 <= i < signatures.Length :: signatures[i]
    ensures forall i :: 0 <= i < signatures.Length ==> signatures[i].Value() == Stripped(old(signatures[i].Value()))
  {
    var k := 0;
    while k < signatures.Length
      invariant 0 <= k <= signatures.Length
      invariant forall i :: 0 <= i < k ==> signatures[i].Value() == Stripped(old(signatures[i].Value()))
      invariant forall i :: k <= i < signatures.Length ==> signatures[i].Value() == old(signatures[i].Value())
    {
      signatures[k].RemoveContextParam();
      k := k + 1;
    }
  }
}
