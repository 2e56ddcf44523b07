/** What the tasks behind the event queue of a source have in common. */
module SourceTask {
  const QUEUE_CAPACITY := 64

  /** The branch that a waiting task's `select!` takes. */
  datatype Choice = Proceed | Receive | TakeWatch | TimerFires | Submitted | SubmitFailed | Reported
}
