/** FieldReadOperation: the field-lineage record of a read from a data
    source into a list of output fields. It is an immutable value; its
    endpoint type is left generic. */
module FieldLineage {
  import opened Wrappers

  datatype OperationType = READ | TRANSFORM | WRITE

  /** A read operation: the FieldOperation part (name, type, description),
      the source endpoint, and its own copy of the output fields. */
  datatype FieldReadOperation<E> = FieldReadOperation(
    name: Option<string>, operationType: OperationType, description: Option<string>,
    source: Option<E>, outputFields: seq<string>)

  /** The constructor taking a list: the type is always READ, and the
      operation keeps the fields in the given order. */
  function NewFieldReadOperation<E>(name: Option<string>, description: Option<string>, source: Option<E>,
                                    outputFields: seq<string>): (op: FieldReadOperation<E>)
    ensures op.operationType == READ
    ensures op.name == name && op.description == description
    ensures op.source == source && op.outputFields == outputFields
  {
    FieldReadOperation(name, READ, description, source, outputFields)
  }

  /** The varargs constructor, over the caller's array: the operation holds a
      copy of the array's contents at the time of the call. */
  method NewFieldReadOperationVarargs<E>(name: Option<string>, description: Option<string>, source: Option<E>,
                                         outputFields: array<string>) returns (op: FieldReadOperation<E>)
    ensures op == NewFieldReadOperation(name, description, source, outputFields[..])
  {
    var copy: seq<string> := [];
    var i := 0;
    while i < outputFields.Length
      invariant 0 <= i <= outputFields.Length
      invariant copy == outputFields[..i]
    {
      copy := copy + [outputFields[i]];
      i := i + 1;
    }
    assert outputFields[..i] == outputFields[..];
    op := NewFieldReadOperation(name, description, source, copy);
  }

  /** The argument of `equals`: null, an object of another class (a subclass
      included), or a FieldReadOperation. */
  datatype JavaObject<E> = Null | OtherClass | ReadOperation(op: FieldReadOperation<E>)

  /** `equals`: same class, equal FieldOperation fields, equal source and
      equal output fields, which for values is equality of the operations. */
  function Equals<E(==)>(a: FieldReadOperation<E>, o: JavaObject<E>): (r: bool)
    ensures r <==> o.ReadOperation? && o.op == a
  {
    match o
    case Null => false
    case OtherClass => false
    case ReadOperation(that) =>
      a.name == that.name && a.operationType == that.operationType && a.description == that.description &&
      a.source == that.source && a.outputFields == that.outputFields
  }

  /** `equals` is reflexive, symmetric and transitive among read operations,
      and false for null and for other classes. */
  lemma EqualsIsEquivalence<E>(a: FieldReadOperation<E>, b: FieldReadOperation<E>, c: FieldReadOperation<E>)
    ensures Equals(a, ReadOperation(a))
    ensures Equals(a, ReadOperation(b)) <==> Equals(b, ReadOperation(a))
    ensures Equals(a, ReadOperation(b)) && Equals(b, ReadOperation(c)) ==> Equals(a, ReadOperation(c))
    ensures !Equals(a, Null) && !Equals(a, OtherClass)
  {
  }

  /** Both constructors build equal operations from the same fields. */
  method VarargsMatchesList<E(==)>(name: Option<string>, description: Option<string>, source: Option<E>,
                                    fields: seq<string>) returns (same: bool)
    ensures same
  {
    var arr := new string[|fields|](i requires 0 <= i < |fields| => fields[i]);
    assert arr[..] == fields;
    var fromArray := NewFieldReadOperationVarargs(name, description, source, arr);
    var fromList := NewFieldReadOperation(name, description, source, fields);
    same := Equals(fromArray, ReadOperation(fromList));
  }

  /** Changing the caller's array after construction leaves the operation's
      output fields as they were. */
  method CopyIsDefensive<E>(source: Option<E>, outputFields: array<string>, replacement: string)
    returns (op: FieldReadOperation<E>)
    requires outputFields.Length > 0
    modifies outputFields
    ensures op.outputFields == old(outputFields[..])
    ensures outputFields[0] == replacement
  {
    op := NewFieldReadOperationVarargs(Some("read"), Some("reads the source"), source, outputFields);
    outputFields[0] := replacement;
  }
}
