/** The shutdown flag as one task sees it: a receiver of a watch channel. */
module Watching {

  /** `unseen` says that a value was sent that this receiver has not yet taken with `changed()`;
      `open` says that the sender still exists. */
  datatype Watch = Watch(value: bool, unseen: bool, open: bool) {

    /** `changed()` resolves: with Ok when a value is unseen, with Err when the sender is gone. */
    predicate Ready() {
      unseen || !open
    }

    /** The test every task makes after `changed()`: it was Ok and the value is true. */
    predicate Stops() {
      unseen && value
    }

    function Taken(): Watch {
      this.(unseen := false)
    }

    function Set(v: bool): Watch {
      if open then Watch(v, true, true) else this
    }

    function Drop(): Watch {
      this.(open := false)
    }
  }

  const NOT_SHUT_DOWN := Watch(false, false, true)

  /** The flag has only ever gone from false to true and its sender lives. */
  predicate Monotone(w: Watch) {
    w.open && (w.unseen ==> w.value)
  }
}
