/**
 * The record `records.TestRecordOverwrittenMembers(int x, int y)`, which adds a
 * delegating constructor `(int x)` and overrides the accessor `x()` to return
 * 100. Only the canonical constructor and the generated accessor `y()` are hidden.
 */
module RecordFixtures {
  import opened Wrappers
  import opened Exprents
  import opened RecordProcessor
  import opened RecordProperties

  const QualifiedName := "records/TestRecordOverwrittenMembers"

  const Record := RecordClass(QualifiedName, [Component("x", "I"), Component("y", "I")])

  /** `TestRecordOverwrittenMembers(int x, int y)`, generated: calls the super constructor and assigns both fields. */
  const CanonicalConstructor := MethodWrapper(INIT_NAME, "(II)V", Some(Statement([Other, Other, Other])))

  /** `TestRecordOverwrittenMembers(int x) { this(x, 42); }`, written by the user. */
  const DelegatingConstructor := MethodWrapper(INIT_NAME, "(I)V", Some(Statement([Other])))

  /** `int x() { return 100; }`, written by the user. */
  const OverwrittenAccessor := MethodWrapper("x", "()I", Some(Statement([Exit(Return, Some(Const(100)))])))

  /** `int y() { return this.y; }`, generated. */
  const GeneratedAccessor := MethodWrapper("y", "()I", Some(Statement([Exit(Return, Some(Field(Some(This), QualifiedName, "y", "I")))])))

  /** `String toString()`, generated through a bootstrap call, which this stage does not hide. */
  const GeneratedToString := MethodWrapper("toString", "()Ljava/lang/String;", Some(Statement([Exit(Return, Some(Other))])))

  /** `int hashCode()`, generated through a bootstrap call, which this stage does not hide. */
  const GeneratedHashCode := MethodWrapper("hashCode", "()I", Some(Statement([Exit(Return, Some(Other))])))

  /** `boolean equals(Object o)`, generated through a bootstrap call, which this stage does not hide. */
  const GeneratedEquals := MethodWrapper("equals", "(Ljava/lang/Object;)Z", Some(Statement([Exit(Return, Some(Other))])))

  /** The constructors and accessors of the compiled record. */
  const Declared := [CanonicalConstructor, DelegatingConstructor, OverwrittenAccessor, GeneratedAccessor]

  /** The generated `Object` methods of the compiled record. */
  const ObjectMethods := [GeneratedToString, GeneratedHashCode, GeneratedEquals]

  /** Every method the compiled record has. */
  const Methods := Declared + ObjectMethods

  /** Which of the record's methods the classifier hides, decided one by one. */
  lemma OverwrittenMembersClassified()
    ensures IsHidden(Record, CanonicalConstructor)
    ensures !IsHidden(Record, DelegatingConstructor)
    ensures !IsHidden(Record, OverwrittenAccessor)
    ensures IsHidden(Record, GeneratedAccessor)
    ensures !IsHidden(Record, GeneratedToString)
    ensures !IsHidden(Record, GeneratedHashCode)
    ensures !IsHidden(Record, GeneratedEquals)
  {
  }

  /** The hidden-member set of the record after classification. */
  lemma OverwrittenMembersHidden()
    ensures HiddenKeys(Record, Methods) == {Key(INIT_NAME, "(II)V"), Key("y", "()I")}
  {
    OverwrittenMembersClassified();
    var expected := {Key(INIT_NAME, "(II)V"), Key("y", "()I")};
    var keys := HiddenKeys(Record, Declared);
    forall k | k in keys ensures k in expected {
      var mt :| mt in Declared && IsHidden(Record, mt) && KeyOf(mt) == k;
      assert mt == CanonicalConstructor || mt == GeneratedAccessor;
    }
    assert CanonicalConstructor in Declared && KeyOf(CanonicalConstructor) in keys;
    assert GeneratedAccessor in Declared && KeyOf(GeneratedAccessor) in keys;
    assert HiddenKeys(Record, ObjectMethods) == {};
    HiddenKeysConcat(Record, Declared, ObjectMethods);
  }

  /** Runs the classifier on a fresh wrapper of the record and reports what it hid. */
  method ClearOverwrittenMembers() returns (hidden: set<Key>)
    ensures hidden == {Key(INIT_NAME, "(II)V"), Key("y", "()I")}
  {
    var wrapper := new ClassWrapper(Record, Methods);
    ClearRecord(wrapper);
    OverwrittenMembersHidden();
    hidden := wrapper.hiddenMembers;
  }

  /**
   * An accessor written by the user as `int x() { return DEFAULT.x; }`, where
   * `DEFAULT` is a static field of the record holding another instance, reads
   * the field `x` of this class, though not from `this`; it is hidden all the same.
   */
  lemma AccessorReadingAnotherInstanceHidden()
    ensures
      var x := Component("x", "I");
      var cl := RecordClass(QualifiedName, [x]);
      var defaultRead := Field(None, QualifiedName, "DEFAULT", "L" + QualifiedName + ";");
      var mt := MethodWrapper("x", "()I", Some(Statement([Exit(Return, Some(Field(Some(defaultRead), QualifiedName, "x", "I")))])));
      mt.firstData.value.exprents[0] != GeneratedAccessorReturn(cl, x) && IsHidden(cl, mt)
  {
  }
}
