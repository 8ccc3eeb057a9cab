/** Optional values: a JavaScript property that may be `undefined`/`null` is `None`. */
module Wrappers {
  datatype Option<+T> = None | Some(value: T)

  /** A JavaScript value that may be `undefined` or `null`. The two are different under
      `!==`, and in general also under relational operators (`null >= 0` holds, since
      `null` converts to 0, while `undefined >= 0` does not). They agree only in the
      comparisons this model makes: `===` against a number or a string, which both fail,
      and a tier test whose range has a lower bound of 200 or more, which neither meets
      (src/components/WeatherBackground.jsx:41-90). */
  datatype Js<+T> = Undefined | Null | Defined(value: T) {
    /** The value, with `undefined` and `null` both `None`. */
    function ToOption(): (o: Option<T>)
      ensures o.Some? <==> Defined?
      ensures o.Some? ==> o.value == value
    {
      if Defined? then Some(value) else None
    }
  }
}
