# Record member classifier

A model of the record stage of the Fernflower decompiler
(`RecordProcessor.clearRecord`). For a class already known to be a Java
record, the stage decides which of its methods the compiler generated, so that
they are not printed, and adds the key of each such method to the class's set
of hidden members. Two kinds of method are hidden:

- the **canonical constructor**: a method named `<init>` whose descriptor is
  `"(" + the component descriptors in declaration order + ")V"`;
- a **plain accessor**: a method with a component's name and the descriptor
  `"()" + that component's descriptor`, whose first data statement starts with
  a return of the field with the component's name and descriptor, declared in
  this very class and read from any object (the generated body reads it from
  `this`, but the object is not checked).

Files:

- `wrappers.dfy`: `Option`, for the values the source may hold as null.
- `descriptors.dfy`: the part of the field-descriptor grammar of section 4.3.2 of
  the Java Virtual Machine Specification that the constructor test relies on,
  and the proof that joining field descriptors is injective.
- `exprents.dfy`: the expression and statement nodes the stage looks at, as a
  closed datatype (`Exit`, `Field` with the object it reads from, `This`,
  `Const`, `Other`).
- `record_processor.dfy`: the classifier. `IsSyntheticConstructor` and
  `MatchComponentToExprent` are functions; the component search of
  `isSyntheticFieldGetter` is a method with its loop; `clearRecord` is a method
  whose loop adds keys to the `hiddenMembers` field of a `ClassWrapper`.
- `record_properties.dfy`: lemmas about the classifier.
- `record_fixtures.dfy`: the record `TestRecordOverwrittenMembers(int x, int y)`
  with a delegating constructor and an overridden `x()`, and an accessor that
  reads its field from another instance.

Two points of the code's behaviour that the model keeps:

- A constructor that fails the constructor test is still given the accessor
  test, because `&&` binds tighter than `||` (`RecordProcessor.java:32-33`).
  For a valid class file this cannot change the result: a constructor there
  returns void, while the accessor test needs the descriptor "()" + a field
  descriptor, and no field descriptor ends in `V` (`VoidMethodNeverAccessor`,
  `ConstructorHiddenIff`). `ConstructorAlsoGetsAccessorTest` shows the rule on
  a constructor that does not return void, which is not a valid class file.
- Only the first expression of the first data statement is inspected
  (`RecordProcessor.java:81`): a body `return this.x;` followed by anything
  else is hidden whatever follows.

## Model

| member | source | states |
|---|---|---|
| `RecordProcessor.ClassWrapper.constructor` | src/org/jetbrains/java/decompiler/main/RecordProcessor.java:21-34 | a wrapper holds the record class, its methods and a hidden-member set, which starts empty |
| `RecordProcessor.ClearRecord` | src/org/jetbrains/java/decompiler/main/RecordProcessor.java:21-37 | the hidden set afterwards is the old set united with the keys of every method satisfying the combined test; nothing is removed |
| `RecordProcessor.IsHidden` | src/org/jetbrains/java/decompiler/main/RecordProcessor.java:32-33 | a hidden method has either the canonical constructor key or the getter key of one of the components |
| `RecordProcessor.HiddenKeys` | src/org/jetbrains/java/decompiler/main/RecordProcessor.java:25-35 | a key is collected exactly when some method of the class with that name and descriptor is hidden |
| `RecordProcessor.IsSyntheticConstructor` | src/org/jetbrains/java/decompiler/main/RecordProcessor.java:45-50 | for a constructor taking field descriptors p, true exactly when p is the component descriptor list in order; reordered, shortened or lengthened lists fail |
| `RecordProcessor.MatchingComponentUnique` | src/org/jetbrains/java/decompiler/main/RecordProcessor.java:68-73 | a method has the getter signature of at most one component |
| `RecordProcessor.LastMatchingComponent` | src/org/jetbrains/java/decompiler/main/RecordProcessor.java:67-73 | no component is found exactly when none has the method's name and getter descriptor; a found one is a component with that signature |
| `RecordProcessor.MatchComponentToExprent` | src/org/jetbrains/java/decompiler/main/RecordProcessor.java:84-97 | true exactly when the expression returns the field of this class with the component's name and descriptor, read from any object |
| `RecordProcessor.SyntheticFieldGetter` | src/org/jetbrains/java/decompiler/main/RecordProcessor.java:66-82 | the accessor test holds exactly when some component has the method's signature and the first expression of the first data statement matches it; which matching component the search keeps does not matter |
| `RecordProcessor.IsSyntheticFieldGetter` | src/org/jetbrains/java/decompiler/main/RecordProcessor.java:66-82 | the search loop ends with the last matching component, and the result is the accessor decision |
| `Descriptors.FieldDescriptorPrefixFree` | src/org/jetbrains/java/decompiler/main/RecordProcessor.java:46-48 | no field descriptor is a proper prefix of another, so a join can be split in one way only |
| `Descriptors.ConcatEmpty` | src/org/jetbrains/java/decompiler/main/RecordProcessor.java:46-48 | only the empty list of field descriptors joins to the empty string |
| `Descriptors.ConcatInjective` | src/org/jetbrains/java/decompiler/main/RecordProcessor.java:46-48 | two lists of field descriptors with the same join are equal |
| `Descriptors.VoidMethodDescriptorShape` | src/org/jetbrains/java/decompiler/main/RecordProcessor.java:49 | a string is "(" + p + ")V" exactly when it has that frame and p between |
| `Descriptors.VoidMethodParametersDetermined` | src/org/jetbrains/java/decompiler/main/RecordProcessor.java:46-49 | a void method descriptor built from field descriptors determines its parameter list |
| `Descriptors.FieldDescriptorNotVoidEnd` | src/org/jetbrains/java/decompiler/main/RecordProcessor.java:70 | no field descriptor ends in V, so "()" + a field descriptor never describes a void method |
| `RecordProperties.ZeroComponentConstructor` | src/org/jetbrains/java/decompiler/main/RecordProcessor.java:46-49 | with no components, only descriptor "()V" passes the constructor test |
| `RecordProperties.VoidMethodNeverAccessor` | src/org/jetbrains/java/decompiler/main/RecordProcessor.java:66-82 | a method returning void never passes the accessor test when the components have field descriptors |
| `RecordProperties.ConstructorHiddenIff` | src/org/jetbrains/java/decompiler/main/RecordProcessor.java:32-49 | for a void constructor over components with field descriptors, as in every valid class file, hidden exactly when its descriptor is the canonical one |
| `RecordProperties.ConstructorAlsoGetsAccessorTest` | src/org/jetbrains/java/decompiler/main/RecordProcessor.java:32-33 | a constructor that fails the constructor test is still tried as an accessor: one with the non-void descriptor ()I over a component named `<init>` is hidden |
| `RecordProperties.LastMatchingComponentIsLast` | src/org/jetbrains/java/decompiler/main/RecordProcessor.java:67-73 | the component found is at an index with no matching component after it |
| `RecordProperties.SyntheticFieldGetterRejects` | src/org/jetbrains/java/decompiler/main/RecordProcessor.java:75-92 | no matching component, no first data statement, an empty expression list, a non-exit, a throw, a return without value, a non-field value or a foreign owner each make the test false |
| `RecordProperties.SyntheticFieldGetterNeedsOwnField` | src/org/jetbrains/java/decompiler/main/RecordProcessor.java:94-96 | a hidden accessor returns the field with its own component's name and descriptor |
| `RecordProperties.AccessorKeyUnique` | src/org/jetbrains/java/decompiler/main/RecordProcessor.java:68-73 | with distinct component names, two hidden accessors of the same name have the same key |
| `RecordProperties.HiddenKeysOrderIndependent` | src/org/jetbrains/java/decompiler/main/RecordProcessor.java:25-35 | the keys collected depend only on which methods there are, not on their order |
| `RecordProperties.HiddenKeysConcat` | src/org/jetbrains/java/decompiler/main/RecordProcessor.java:25-35 | the keys for two lists of methods together are the union of the keys for each |
| `RecordProperties.ClearRecordTwice` | src/org/jetbrains/java/decompiler/main/RecordProcessor.java:21-37 | two runs on an unchanged class leave the same hidden set as one run |
| `RecordFixtures.OverwrittenMembersClassified` | testData/src/records/TestRecordOverwrittenMembers.java:3-10 | constructor (II)V and accessor y() are hidden; constructor (I)V, the overridden x() returning 100, toString(), hashCode() and equals() are kept |
| `RecordFixtures.OverwrittenMembersHidden` | testData/src/records/TestRecordOverwrittenMembers.java:3-10 | the hidden keys of the whole record are exactly (`<init>`, (II)V) and (y, ()I) |
| `RecordFixtures.ClearOverwrittenMembers` | testData/src/records/TestRecordOverwrittenMembers.java:3-10 | running the classifier on a new wrapper of the record hides exactly those two keys |
| `RecordFixtures.AccessorReadingAnotherInstanceHidden` | src/org/jetbrains/java/decompiler/main/RecordProcessor.java:93-96 | an accessor `return DEFAULT.x;` reading the field from another instance is hidden, though its body is not the generated one |

## Left out

- `Statements.findFirstData` and the statement tree it walks are not part of this model; each method carries the statement it would return, or `None`.
- `InterpreterUtil.makeUniqueKey` is not part of this model; the key is the pair of name and descriptor (`Key`), which cannot collide.
- `ClassWrapper`, `MethodWrapper`, `StructClass`, `StructMethod` and `StructRecordComponent` are reduced to the strings and sequences the stage reads.
- The field descriptor of a `FieldExprent` is a plain string; parsing it is not part of this model.
- `String.format` and `Collectors.joining` are string concatenation.
- Null references: a return without a value, which the source would dereference at `RecordProcessor.java:89-90`, is classified as not synthetic; the expression list of the first data statement is never null (the `requireNonNull` at line 78 cannot fail in the model).
- The object a returned field is read from is modelled but, as in the source, never checked: a user-written accessor that returns the component's field of another instance of the record is hidden like the generated one.
- `LastMatchingComponent`: a component is only its name and descriptor, so all components that match one method are equal and "the last match" cannot be told apart from "any match".
- `IsSyntheticConstructor`: reordered or partial parameter lists are shown not to match only for well-formed field descriptors; the grammar does not model the limit of 255 array dimensions or which characters a class name may hold, only that it is non-empty and has no `;`.
- No concurrency: the source has none.
