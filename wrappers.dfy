/** Optional values: `None` stands for JavaScript's `undefined`, and for the
    `NaN` that `parseFloat`/`Number` return on text that is not a number. */
module Wrappers {

  datatype Option<+T> = None | Some(value: T)
}
