/**
 * The part of the decompiler's reconstructed expression tree that the record
 * classifier inspects. The source tells the variants apart by an integer type
 * tag and casts; here they form a closed datatype.
 */
module Exprents {
  import opened Wrappers

  /** The kind of an exit expression. */
  datatype ExitType = Return | Throw

  datatype Exprent =
    /** `return value;` or `throw value;`; a `return;` without a value has `value == None`. */
    | Exit(exitType: ExitType, value: Option<Exprent>)
    /**
     * A read of field `name` with type descriptor `descriptor`, declared in class
     * `classname`, from the object `instance` (`None` for a static field).
     */
    | Field(instance: Option<Exprent>, classname: string, name: string, descriptor: string)
    /** The reference `this`. */
    | This
    /** An integer literal, such as the `100` of a user-written accessor. */
    | Const(intValue: int)
    /** Every other kind of expression (invocations, assignments, operators, ...). */
    | Other

  /** A statement that holds data: its list of top-level expressions. */
  datatype Statement = Statement(exprents: seq<Exprent>)
}
