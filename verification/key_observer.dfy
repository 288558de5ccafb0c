/**
 * `KeyObserver`: the handle a binding registers with the hub. It holds two
 * weak references to change publishers and signals each that is still alive
 * whenever its key changes.
 */
module KeyObservers {

  /** An `ObservableObjectPublisher`, reduced to a count of `send()` calls. */
  class Publisher {
    var sent: nat

    constructor ()
      ensures sent == 0
    {
      sent := 0;
    }

    method Send()
      modifies this
      ensures sent == old(sent) + 1
    {
      sent := sent + 1;
    }
  }

  class KeyObserver {
    // Weak references: null once the publisher is gone (or never set).
    var storageObjectWillChange: Publisher?
    var enclosingObjectWillChange: Publisher?

    constructor ()
      ensures storageObjectWillChange == null && enclosingObjectWillChange == null
    {
      storageObjectWillChange := null;
      enclosingObjectWillChange := null;
    }

    /** The publishers still referenced. */
    function Publishers(): set<Publisher>
      reads this
    {
      (if storageObjectWillChange == null then {} else {storageObjectWillChange})
      + (if enclosingObjectWillChange == null then {} else {enclosingObjectWillChange})
    }

    /** How many signals `p` receives from one `keyChanged()`. */
    function SignalsTo(p: Publisher): nat
      reads this
    {
      (if storageObjectWillChange == p then 1 else 0) + (if enclosingObjectWillChange == p then 1 else 0)
    }

    /**
     * `keyChanged()`: each live publisher is sent one signal per reference to
     * it; a nil reference is skipped; nothing else changes.
     */
    method KeyChanged()
      modifies Publishers()
      ensures forall p :: p in old(Publishers()) ==> p.sent == old(p.sent) + old(SignalsTo(p))
      ensures storageObjectWillChange == old(storageObjectWillChange)
      ensures enclosingObjectWillChange == old(enclosingObjectWillChange)
    {
      if storageObjectWillChange != null {
        storageObjectWillChange.Send();
      }
      if enclosingObjectWillChange != null {
        enclosingObjectWillChange.Send();
      }
    }
  }
}
