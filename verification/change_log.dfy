/**
 * Recorded mutations and the ordered, append-only list that buffers them
 * for one named object.
 */
module ChangeLog {

  /** The kinds of mutation a transaction-aware collection records. */
  datatype ChangeType =
    | Clear | Remove                     // sets and maps alike
    | MapPut | MapPutAll
    | SetAdd | SetAddAll | SetRemoveAll | SetRetainAll
    | LruMarkAccessed

  /** One recorded mutation: its kind and the payload the concrete kind of
      change carries (a key and value, a collection of elements, ...). */
  datatype Change<P> = Change(changeType: ChangeType, payload: P)

  /** The change buffer of one object: its changes in the order they were made. */
  class Changes<C> {
    var changes: seq<C>
    const objectName: string

    /** A new buffer is empty and carries the object's name. */
    constructor (objectName: string)
      ensures this.objectName == objectName
      ensures changes == []
    {
      this.objectName := objectName;
      changes := [];
      new;
      Reset();
    }

    /** Empty the buffer; the name stays. */
    method Reset()
      modifies this`changes
      ensures changes == []
    {
      changes := [];
    }

    /** Append one change after all earlier ones. */
    method AddChange(change: C)
      modifies this`changes
      ensures changes == old(changes) + [change]
    {
      changes := changes + [change];
    }

    /** Whether anything is buffered. */
    function HasChanges(): (r: bool)
      reads this
      ensures r <==> |changes| > 0
      ensures r <==> Size() != 0
    {
      changes != []
    }

    /** The buffered changes, oldest first. */
    function GetChanges(): seq<C>
      reads this
    {
      changes
    }

    function GetName(): string
    {
      objectName
    }

    /** The number of buffered changes. */
    function Size(): (n: nat)
      reads this
      ensures n == |GetChanges()|
    {
      |changes|
    }
  }
}
