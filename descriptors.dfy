/**
 * Type descriptors of the Java class-file format (section 4.3.2 of the Java
 * Virtual Machine Specification), as far as the record classifier relies on
 * them: a method descriptor with parameters p1 ... pn and return type V is
 * "(" + p1 + ... + pn + ")V", and field descriptors form a prefix-free code,
 * so a concatenation of field descriptors determines the list it came from.
 */
module Descriptors {

  /** The one-letter descriptors of the primitive types. */
  const PrimitiveTags: set<char> := {'B', 'C', 'D', 'F', 'I', 'J', 'S', 'Z'}

  /**
   * A field descriptor: a primitive tag, "L" + class name + ";" with a
   * non-empty class name that contains no ';', or "[" + a field descriptor.
   */
  predicate IsFieldDescriptor(s: string)
    decreases |s|
  {
    |s| > 0 &&
    if s[0] in PrimitiveTags then |s| == 1
    else if s[0] == 'L' then |s| >= 3 && s[|s| - 1] == ';' && ';' !in s[1..|s| - 1]
    else s[0] == '[' && IsFieldDescriptor(s[1..])
  }

  predicate AllFieldDescriptors(ds: seq<string>) {
    forall i :: 0 <= i < |ds| ==> IsFieldDescriptor(ds[i])
  }

  /** The descriptors joined with no separator, as Collectors.joining() does. */
  function Concat(ds: seq<string>): string {
    if ds == [] then "" else ds[0] + Concat(ds[1..])
  }

  /** No field descriptor is a proper prefix of another. */
  lemma {:induction false} FieldDescriptorPrefixFree(a: string, b: string, ra: string, rb: string)
    requires IsFieldDescriptor(a) && IsFieldDescriptor(b)
    requires a + ra == b + rb
    ensures a == b && ra == rb
    decreases |a|
  {
    var s := a + ra;
    assert s[0] == a[0] && s[0] == b[0];
    if a[0] in PrimitiveTags {
      assert a == s[..1] == b;
    } else if a[0] == 'L' {
      // In s, the first ';' after the leading 'L' ends both a and b.
      assert forall j :: 1 <= j < |a| - 1 ==> s[j] != ';' by {
        forall j | 1 <= j < |a| - 1 ensures s[j] != ';' {
          assert s[j] == a[j] == a[1..|a| - 1][j - 1];
        }
      }
      assert forall j :: 1 <= j < |b| - 1 ==> s[j] != ';' by {
        forall j | 1 <= j < |b| - 1 ensures s[j] != ';' {
          assert s[j] == b[j] == b[1..|b| - 1][j - 1];
        }
      }
      assert s[|a| - 1] == a[|a| - 1] && s[|b| - 1] == b[|b| - 1];
      assert |a| == |b|;
      assert a == s[..|a|] == b;
    } else {
      assert a[1..] + ra == s[1..] == b[1..] + rb;
      FieldDescriptorPrefixFree(a[1..], b[1..], ra, rb);
      assert a == [a[0]] + a[1..];
      assert b == [b[0]] + b[1..];
    }
    assert ra == s[|a|..] == rb;
  }

  /** Field descriptors are never empty, so only the empty list joins to "". */
  lemma ConcatEmpty(ds: seq<string>)
    requires AllFieldDescriptors(ds)
    ensures Concat(ds) == "" <==> ds == []
  {
  }

  /** Joining field descriptors loses nothing: equal joins come from equal lists. */
  lemma {:induction false} ConcatInjective(ds1: seq<string>, ds2: seq<string>)
    requires AllFieldDescriptors(ds1) && AllFieldDescriptors(ds2)
    requires Concat(ds1) == Concat(ds2)
    ensures ds1 == ds2
  {
    ConcatEmpty(ds1);
    ConcatEmpty(ds2);
    if ds1 != [] && ds2 != [] {
      assert IsFieldDescriptor(ds1[0]) && IsFieldDescriptor(ds2[0]);
      FieldDescriptorPrefixFree(ds1[0], ds2[0], Concat(ds1[1..]), Concat(ds2[1..]));
      assert AllFieldDescriptors(ds1[1..]) by {
        forall i | 0 <= i < |ds1[1..]| ensures IsFieldDescriptor(ds1[1..][i]) {
          assert ds1[1..][i] == ds1[i + 1];
        }
      }
      assert AllFieldDescriptors(ds2[1..]) by {
        forall i | 0 <= i < |ds2[1..]| ensures IsFieldDescriptor(ds2[1..][i]) {
          assert ds2[1..][i] == ds2[i + 1];
        }
      }
      ConcatInjective(ds1[1..], ds2[1..]);
      assert ds1 == [ds1[0]] + ds1[1..];
      assert ds2 == [ds2[0]] + ds2[1..];
    }
  }

  /** A void method descriptor is "(" + parameters + ")V", and the parameters are recovered from it. */
  lemma VoidMethodDescriptorShape(d: string, params: string)
    ensures d == "(" + params + ")V" <==>
      |d| >= 3 && d[0] == '(' && d[|d| - 2..] == ")V" && d[1..|d| - 2] == params
  {
  }

  /** A void method descriptor built from field descriptors determines its parameter list. */
  lemma VoidMethodParametersDetermined(ds: seq<string>)
    ensures AllFieldDescriptors(ds) ==>
      forall params :: AllFieldDescriptors(params) && "(" + Concat(params) + ")V" == "(" + Concat(ds) + ")V" ==>
        params == ds
  {
    if AllFieldDescriptors(ds) {
      forall params | AllFieldDescriptors(params) && "(" + Concat(params) + ")V" == "(" + Concat(ds) + ")V"
        ensures params == ds
      {
        var d := "(" + Concat(ds) + ")V";
        VoidMethodDescriptorShape(d, Concat(params));
        VoidMethodDescriptorShape(d, Concat(ds));
        ConcatInjective(params, ds);
      }
    }
  }

  /** No field descriptor ends in 'V', the descriptor of the void return type. */
  lemma {:induction false} FieldDescriptorNotVoidEnd(s: string)
    requires IsFieldDescriptor(s)
    ensures s[|s| - 1] != 'V'
    decreases |s|
  {
    if s[0] == '[' && s[0] !in PrimitiveTags {
      FieldDescriptorNotVoidEnd(s[1..]);
      assert s[1..][|s[1..]| - 1] == s[|s| - 1];
    }
  }
}
