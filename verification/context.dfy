/**
 * Cooperative cancellation, the part of Go's `context.Context` the program
 * observes. Every place where the code looks at `ctx.Done()` or `ctx.Err()`
 * is a numbered checkpoint; a cancellation `Some(k)` is first visible at
 * checkpoint `k` and stays visible, `None` is a context never cancelled.
 */
module Context {
  import opened Wrappers

  type Cancellation = Option<nat>

  /** Whether the context reports Done at checkpoint `tick`. */
  predicate Done(cancel: Cancellation, tick: nat) {
    cancel.Some? && tick >= cancel.value
  }
}
