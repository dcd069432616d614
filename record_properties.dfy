/** What the record-member classifier promises, proved about the model. */
module RecordProperties {
  import opened Wrappers
  import opened Descriptors
  import opened Exprents
  import opened RecordProcessor

  // ---------------------------------------------------------------------------
  // Canonical constructor

  /** A record without components has exactly one canonical constructor descriptor, "()V". */
  lemma ZeroComponentConstructor(cl: RecordClass, mt: MethodWrapper)
    requires cl.components == []
    ensures IsSyntheticConstructor(cl, mt) <==> mt.descriptor == "()V"
  {
  }

  /**
   * A method returning void never passes the accessor test when the components
   * have field descriptors: its descriptor would be "()" + a field descriptor,
   * and no field descriptor ends in 'V'.
   */
  lemma VoidMethodNeverAccessor(cl: RecordClass, mt: MethodWrapper)
    requires forall c :: c in cl.components ==> IsFieldDescriptor(c.descriptor)
    requires |mt.descriptor| > 0 && mt.descriptor[|mt.descriptor| - 1] == 'V'
    ensures !SyntheticFieldGetter(cl, mt)
  {
    forall c | c in cl.components ensures !AccessorSignature(c, mt) {
      FieldDescriptorNotVoidEnd(c.descriptor);
      var getter := "()" + c.descriptor;
      assert getter[|getter| - 1] == c.descriptor[|c.descriptor| - 1];
    }
  }

  /**
   * In a valid class file a constructor returns void and the components have
   * field descriptors; there a constructor is hidden exactly when its
   * descriptor is the canonical one.
   */
  lemma ConstructorHiddenIff(cl: RecordClass, mt: MethodWrapper)
    requires mt.name == INIT_NAME
    requires forall c :: c in cl.components ==> IsFieldDescriptor(c.descriptor)
    requires |mt.descriptor| > 0 && mt.descriptor[|mt.descriptor| - 1] == 'V'
    ensures IsHidden(cl, mt) <==> mt.descriptor == CanonicalConstructorDescriptor(cl.components)
  {
    VoidMethodNeverAccessor(cl, mt);
  }

  /**
   * The constructor test does not end the decision for a constructor: one that
   * fails it is still given the accessor test. This can change the outcome
   * only for a constructor that does not return void, which format checking
   * rejects (see ConstructorHiddenIff); the example below is such a class file.
   */
  lemma ConstructorAlsoGetsAccessorTest()
    ensures
      var c := Component(INIT_NAME, "I");
      var cl := RecordClass("Odd", [c]);
      var mt := MethodWrapper(INIT_NAME, "()I", Some(Statement([GeneratedAccessorReturn(cl, c)])));
      !IsSyntheticConstructor(cl, mt) && IsHidden(cl, mt)
  {
  }

  // ---------------------------------------------------------------------------
  // Accessor

  /** The search keeps the last component in declaration order that matches. */
  lemma {:induction false} LastMatchingComponentIsLast(cs: seq<Component>, mt: MethodWrapper)
    ensures LastMatchingComponent(cs, mt).Some? ==>
      exists i :: 0 <= i < |cs| && cs[i] == LastMatchingComponent(cs, mt).value && AccessorSignature(cs[i], mt) &&
        forall j :: i < j < |cs| ==> !AccessorSignature(cs[j], mt)
  {
    if cs != [] && !AccessorSignature(cs[|cs| - 1], mt) {
      var init := cs[..|cs| - 1];
      LastMatchingComponentIsLast(init, mt);
      if LastMatchingComponent(init, mt).Some? {
        var i :| 0 <= i < |init| && init[i] == LastMatchingComponent(init, mt).value && AccessorSignature(init[i], mt) &&
          forall j :: i < j < |init| ==> !AccessorSignature(init[j], mt);
        assert cs[i] == init[i];
        assert forall j :: i < j < |cs| ==> !AccessorSignature(cs[j], mt) by {
          forall j | i < j < |cs| ensures !AccessorSignature(cs[j], mt) {
            if j < |cs| - 1 {
              assert cs[j] == init[j];
            }
          }
        }
      }
    }
  }

  /** Every missing or mismatching ingredient makes the accessor test false. */
  lemma SyntheticFieldGetterRejects(cl: RecordClass, mt: MethodWrapper)
    ensures (forall c :: c in cl.components ==> !AccessorSignature(c, mt)) ==> !SyntheticFieldGetter(cl, mt)
    ensures mt.firstData.None? ==> !SyntheticFieldGetter(cl, mt)
    ensures mt.firstData.Some? && mt.firstData.value.exprents == [] ==> !SyntheticFieldGetter(cl, mt)
    ensures mt.firstData.Some? && |mt.firstData.value.exprents| > 0 ==>
      var e := mt.firstData.value.exprents[0];
      (!e.Exit? || e.exitType == Throw || e.value.None? || !e.value.value.Field? ||
       e.value.value.classname != cl.qualifiedName) ==> !SyntheticFieldGetter(cl, mt)
  {
  }

  /**
   * The field read must be of the component the method is named after, with
   * that component's descriptor: a getter returning another component's field
   * or a field of another type is kept.
   */
  lemma SyntheticFieldGetterNeedsOwnField(cl: RecordClass, mt: MethodWrapper, c: Component)
    requires c in cl.components && AccessorSignature(c, mt)
    requires mt.firstData.Some? && |mt.firstData.value.exprents| > 0
    requires mt.firstData.value.exprents[0].Exit? && mt.firstData.value.exprents[0].value.Some?
    requires mt.firstData.value.exprents[0].value.value.Field?
    ensures SyntheticFieldGetter(cl, mt) ==>
      var f := mt.firstData.value.exprents[0].value.value;
      f.name == c.name && f.descriptor == c.descriptor
  {
    MatchingComponentUnique(c, mt);
  }

  /**
   * When component names are distinct, as the language requires, at most one
   * key is hidden per accessor name.
   */
  lemma AccessorKeyUnique(cl: RecordClass, m1: MethodWrapper, m2: MethodWrapper)
    requires forall i, j :: 0 <= i < j < |cl.components| ==> cl.components[i].name != cl.components[j].name
    requires SyntheticFieldGetter(cl, m1) && SyntheticFieldGetter(cl, m2) && m1.name == m2.name
    ensures KeyOf(m1) == KeyOf(m2)
  {
  }

  // ---------------------------------------------------------------------------
  // Classifier

  /** The hidden keys depend only on which methods the class has, not on their order or repetition. */
  lemma HiddenKeysOrderIndependent(cl: RecordClass, ms1: seq<MethodWrapper>, ms2: seq<MethodWrapper>)
    requires forall mt :: mt in ms1 <==> mt in ms2
    ensures HiddenKeys(cl, ms1) == HiddenKeys(cl, ms2)
  {
  }

  /**
   * Each method is classified on its own: the keys hidden for two lists of
   * methods together are those hidden for each list.
   */
  lemma HiddenKeysConcat(cl: RecordClass, a: seq<MethodWrapper>, b: seq<MethodWrapper>)
    ensures HiddenKeys(cl, a + b) == HiddenKeys(cl, a) + HiddenKeys(cl, b)
  {
  }

  /** Running the classifier twice on an unchanged class hides what one run hides. */
  method ClearRecordTwice(wrapper: ClassWrapper)
    modifies wrapper`hiddenMembers
    ensures wrapper.hiddenMembers == old(wrapper.hiddenMembers) + HiddenKeys(wrapper.classStruct, wrapper.methods)
  {
    ClearRecord(wrapper);
    ClearRecord(wrapper);
  }
}
