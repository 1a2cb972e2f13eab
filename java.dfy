/** The slice of the Java platform the object model stands on: nullable
    values, the fixed-width integer types, and the two library collections
    (java.util.ArrayList and java.util.HashMap) whose objects the model keeps
    as heap references, so that sharing them is visible. */
module Java {

  /** A Java reference that may be null. */
  datatype Option<+T> = None | Some(value: T)

  /** A java.lang.String reference: null, or a string. */
  type JString = Option<string>

  /** Java `int`. */
  newtype i32 = x: int | -0x8000_0000 <= x < 0x8000_0000

  /** Java `long`. */
  newtype i64 = x: int | -0x8000_0000_0000_0000 <= x < 0x8000_0000_0000_0000

  /** The unchecked exceptions an operation of the model can raise. */
  datatype Exception = NullPointerException | UnsupportedOperationException

  /** The outcome of a Java call: a returned value or a thrown exception. */
  datatype Result<+T> = Ok(value: T) | Throws(exception: Exception)

  /** A java.util.List object: a sequence that every holder of the
      reference sees. A modifiable list (an ArrayList) grows in place; an
      unmodifiable one (`List.of(..)`, `Collections.emptyList()`,
      `Arrays.asList(..)`) refuses to grow. */
  class JList<T> {
    var elems: seq<T>
    const modifiable: bool

    /** `new ArrayList<>()` */
    constructor Empty()
      ensures elems == [] && modifiable
    {
      elems := [];
      modifiable := true;
    }

    /** A list that cannot grow, holding `elems`. */
    constructor Unmodifiable(elems: seq<T>)
      ensures this.elems == elems && !modifiable
    {
      this.elems := elems;
      modifiable := false;
    }

    /** `List.add(x)`: appends in place, or throws on a list that cannot
        grow and leaves it as it was. */
    method Add(x: T) returns (thrown: Option<Exception>)
      modifies this
      ensures modifiable ==> thrown == None && elems == old(elems) + [x]
      ensures !modifiable ==> thrown == Some(UnsupportedOperationException) && elems == old(elems)
    {
      if !modifiable {
        return Some(UnsupportedOperationException);
      }
      elems := elems + [x];
      thrown := None;
    }
  }

  /** A java.util.HashMap object: a mutable finite map. */
  class HashMap<K(==), V> {
    var entries: map<K, V>

    /** `new HashMap<>()` */
    constructor Empty()
      ensures entries == map[]
    {
      entries := map[];
    }

    /** `Map.put(k, v)`: binds k to v, replacing an earlier binding. */
    method Put(k: K, v: V)
      modifies this
      ensures entries == old(entries)[k := v]
    {
      entries := entries[k := v];
    }
  }
}

/** The constants the object model takes from the Ergo appkit library. */
module Appkit {
  import opened Java

  /** `Parameters.MinFee`, the minimal transaction fee in nanoERG. Its value
      is defined by the appkit library, outside this model, so it is left
      uninterpreted: the model only states that a field holds it. */
  const MinFee: i64
}

/** What a sequence of setter calls leaves behind: the getter of a field
    returns the value of the last setter call that wrote that field, or the
    constructor's value when no call wrote it. */
module Accessors {
  import opened Java

  /** The last value `written` extracts from `ops`, or `initial` when no
      element of `ops` writes the field (that the value is the LAST write's
      is `LastWriteIsLast`). */
  function LastWrite<Op, T>(initial: T, ops: seq<Op>, written: Op -> Option<T>): (r: T)
    ensures r == initial || exists i :: 0 <= i < |ops| && written(ops[i]) == Some(r)
    ensures (forall i :: 0 <= i < |ops| ==> written(ops[i]) == None) ==> r == initial
  {
    if ops == [] then initial
    else match written(ops[|ops| - 1])
      case Some(v) => v
      case None => LastWrite(initial, ops[..|ops| - 1], written)
  }

  /** When `ops[i]` writes the field and no later element does, the field
      holds the value `ops[i]` wrote. */
  lemma {:induction false} LastWriteIsLast<Op, T>(initial: T, ops: seq<Op>, written: Op -> Option<T>, i: int)
    requires 0 <= i < |ops| && written(ops[i]).Some?
    requires forall j :: i < j < |ops| ==> written(ops[j]) == None
    ensures LastWrite(initial, ops, written) == written(ops[i]).value
  {
    if i < |ops| - 1 {
      LastWriteIsLast(initial, ops[..|ops| - 1], written, i);
    }
  }
}
