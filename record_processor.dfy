/**
 * The record-member classifier: for a class already known to be a record, it
 * finds the methods the compiler generated (the canonical constructor and the
 * plain component accessors) and adds their keys to the class's set of hidden
 * members, so that they are not printed.
 */
module RecordProcessor {
  import opened Wrappers
  import opened Descriptors
  import opened Exprents

  /** The name the class-file format gives to constructors. */
  const INIT_NAME := "<init>"

  /** A record component: its name and its field descriptor. */
  datatype Component = Component(name: string, descriptor: string)

  /** What the classifier reads of a record class: its qualified (internal) name and its components in declaration order. */
  datatype RecordClass = RecordClass(qualifiedName: string, components: seq<Component>)

  /**
   * One method of the class: its name, its descriptor, and the first statement
   * of its reconstructed body that holds data (`None` when there is none).
   */
  datatype MethodWrapper = MethodWrapper(name: string, descriptor: string, firstData: Option<Statement>)

  /** The key under which a member is hidden: its name and descriptor, kept apart. */
  datatype Key = Key(name: string, descriptor: string)

  function KeyOf(mt: MethodWrapper): Key {
    Key(mt.name, mt.descriptor)
  }

  /** A class being decompiled, with the hidden-member set that later printing consults. */
  class ClassWrapper {
    const classStruct: RecordClass
    const methods: seq<MethodWrapper>
    var hiddenMembers: set<Key>

    constructor (classStruct: RecordClass, methods: seq<MethodWrapper>)
      ensures this.classStruct == classStruct && this.methods == methods
      ensures hiddenMembers == {}
    {
      this.classStruct := classStruct;
      this.methods := methods;
      hiddenMembers := {};
    }
  }

  // ---------------------------------------------------------------------------
  // Synthetic canonical constructor

  function ComponentDescriptors(cs: seq<Component>): seq<string> {
    seq(|cs|, i requires 0 <= i < |cs| => cs[i].descriptor)
  }

  /** The descriptor of the canonical constructor: the component descriptors in order, returning void. */
  function CanonicalConstructorDescriptor(cs: seq<Component>): string {
    "(" + Concat(ComponentDescriptors(cs)) + ")V"
  }

  /**
   * Whether the method's descriptor is that of the canonical constructor. For a
   * method taking the field descriptors `params`, it holds exactly when `params`
   * lists the component descriptors in declaration order: a reordered, shortened
   * or lengthened parameter list never matches.
   */
  function IsSyntheticConstructor(cl: RecordClass, mt: MethodWrapper): (r: bool)
    ensures AllFieldDescriptors(ComponentDescriptors(cl.components)) ==>
      forall params :: AllFieldDescriptors(params) && mt.descriptor == "(" + Concat(params) + ")V" ==>
        (r <==> params == ComponentDescriptors(cl.components))
  {
    VoidMethodParametersDetermined(ComponentDescriptors(cl.components));
    CanonicalConstructorDescriptor(cl.components) == mt.descriptor
  }

  // ---------------------------------------------------------------------------
  // Synthetic accessor

  /** The method has the component's name and the descriptor of a getter of the component's type. */
  predicate AccessorSignature(c: Component, mt: MethodWrapper) {
    mt.name == c.name && mt.descriptor == "()" + c.descriptor
  }

  /** A method has the accessor signature of at most one component. */
  lemma MatchingComponentUnique(c: Component, mt: MethodWrapper)
    requires AccessorSignature(c, mt)
    ensures forall c' :: AccessorSignature(c', mt) ==> c' == c
  {
    forall c' | AccessorSignature(c', mt) ensures c' == c {
      assert c'.descriptor == mt.descriptor[2..] == c.descriptor;
    }
  }

  /** The component the search loop ends with: the last one whose accessor signature the method has. */
  function LastMatchingComponent(cs: seq<Component>, mt: MethodWrapper): (r: Option<Component>)
    ensures r.None? <==> forall c :: c in cs ==> !AccessorSignature(c, mt)
    ensures r.Some? ==> r.value in cs && AccessorSignature(r.value, mt)
  {
    if cs == [] then None
    else if AccessorSignature(cs[|cs| - 1], mt) then Some(cs[|cs| - 1])
    else
      assert forall c :: c in cs ==> c in cs[..|cs| - 1] || c == cs[|cs| - 1];
      LastMatchingComponent(cs[..|cs| - 1], mt)
  }

  /** `return instance.c;`: a return of the field `c` of this class, read from `instance` (`None` for a static read). */
  function ReturnOfField(cl: RecordClass, c: Component, instance: Option<Exprent>): Exprent {
    Exit(Return, Some(Field(instance, cl.qualifiedName, c.name, c.descriptor)))
  }

  /** The body the compiler generates for the accessor of `c`: `return this.c;`. */
  function GeneratedAccessorReturn(cl: RecordClass, c: Component): Exprent {
    ReturnOfField(cl, c, Some(This))
  }

  /**
   * Whether the expression returns the component's field of this class. The
   * object the field is read from is not looked at, so `return this.c;` matches
   * and so does a read of `c` from any other object. A return without a value
   * (which the source would dereference) is not a match.
   */
  function MatchComponentToExprent(cl: RecordClass, component: Component, exprent: Exprent): (r: bool)
    ensures r <==> exists instance :: exprent == ReturnOfField(cl, component, instance)
  {
    if !exprent.Exit? || exprent.exitType != Return then false
    else match exprent.value
      case None => false
      case Some(returnExprent) =>
        if !returnExprent.Field? then false
        else
          var matches :=
            returnExprent.classname == cl.qualifiedName
            && returnExprent.name == component.name
            && returnExprent.descriptor == component.descriptor;
          // the witness for the read object is the one in the expression
          assert matches ==> exprent == ReturnOfField(cl, component, returnExprent.instance);
          matches
  }

  /**
   * The decision of the accessor test. Although the search keeps the last
   * matching component, the outcome is that of any component whose accessor
   * signature the method has.
   */
  function SyntheticFieldGetter(cl: RecordClass, mt: MethodWrapper): (r: bool)
    ensures r <==>
      exists c :: c in cl.components && AccessorSignature(c, mt) &&
        mt.firstData.Some? && |mt.firstData.value.exprents| > 0 &&
        MatchComponentToExprent(cl, c, mt.firstData.value.exprents[0])
  {
    match LastMatchingComponent(cl.components, mt)
    case None => false
    case Some(c) =>
      MatchingComponentUnique(c, mt);
      mt.firstData.Some? && |mt.firstData.value.exprents| > 0 &&
      MatchComponentToExprent(cl, c, mt.firstData.value.exprents[0])
  }

  /** The accessor test: search the components for the getter's one, then inspect the first expression. */
  method IsSyntheticFieldGetter(cl: RecordClass, mt: MethodWrapper) returns (synthetic: bool)
    ensures synthetic == SyntheticFieldGetter(cl, mt)
  {
    var matchingComponent: Option<Component> := None;
    var components := cl.components;
    var i := 0;
    while i < |components|
      invariant 0 <= i <= |components|
      invariant matchingComponent == LastMatchingComponent(components[..i], mt)
    {
      var component := components[i];
      assert components[..i + 1][..i] == components[..i];
      if mt.name == component.name && mt.descriptor == "()" + component.descriptor {
        matchingComponent := Some(component);
      }
      i := i + 1;
    }
    assert components[..i] == components;

    if matchingComponent.None? || mt.firstData.None? || |mt.firstData.value.exprents| == 0 {
      return false;
    }
    synthetic := MatchComponentToExprent(cl, matchingComponent.value, mt.firstData.value.exprents[0]);
  }

  // ---------------------------------------------------------------------------
  // The classifier

  /**
   * The combined condition under which a method is hidden. As in the source,
   * `&&` binds tighter than `||`: a constructor that fails the constructor test
   * is still given the accessor test.
   */
  predicate IsHidden(cl: RecordClass, mt: MethodWrapper)
    ensures IsHidden(cl, mt) ==>
      KeyOf(mt) == Key(INIT_NAME, CanonicalConstructorDescriptor(cl.components)) ||
      exists c :: c in cl.components && KeyOf(mt) == Key(c.name, "()" + c.descriptor)
  {
    (mt.name == INIT_NAME && IsSyntheticConstructor(cl, mt)) || SyntheticFieldGetter(cl, mt)
  }

  /** The keys of the hidden methods among `ms`. */
  function HiddenKeys(cl: RecordClass, ms: seq<MethodWrapper>): (keys: set<Key>)
    ensures forall k :: k in keys <==> exists mt :: mt in ms && IsHidden(cl, mt) && KeyOf(mt) == k
  {
    if ms == [] then {}
    else
      var last := ms[|ms| - 1];
      assert forall mt :: mt in ms <==> mt in ms[..|ms| - 1] || mt == last;
      HiddenKeys(cl, ms[..|ms| - 1]) + (if IsHidden(cl, last) then {KeyOf(last)} else {})
  }

  /** Adds the key of every generated constructor and accessor of the record to its hidden members. */
  method ClearRecord(wrapper: ClassWrapper)
    modifies wrapper`hiddenMembers
    ensures wrapper.hiddenMembers == old(wrapper.hiddenMembers) + HiddenKeys(wrapper.classStruct, wrapper.methods)
  {
    var cl := wrapper.classStruct;
    var methods := wrapper.methods;
    var i := 0;
    while i < |methods|
      invariant 0 <= i <= |methods|
      invariant wrapper.hiddenMembers == old(wrapper.hiddenMembers) + HiddenKeys(cl, methods[..i])
    {
      var mt := methods[i];
      assert methods[..i + 1][..i] == methods[..i];
      var isHidden := mt.name == INIT_NAME && IsSyntheticConstructor(cl, mt);
      if !isHidden {
        isHidden := IsSyntheticFieldGetter(cl, mt);
      }
      if isHidden {
        wrapper.hiddenMembers := wrapper.hiddenMembers + {KeyOf(mt)};
      }
      i := i + 1;
    }
    assert methods[..i] == methods;
  }
}
