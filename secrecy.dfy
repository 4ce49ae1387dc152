/**
 A model of the `Secret<T>` wrapper that `DatabaseConfig` uses for its password.
 The wrapper is opaque: the only way the model reads the wrapped value is the
 explicit `Expose` accessor, the counterpart of `expose_secret()`.
 */
module Secrecy {

  /** A wrapped value. Its field is read only through `Expose`. */
  datatype Secret<T> = Secret(inner: T) {

    /** Deliberate, explicit access to the wrapped value: the wrapper is exactly the value it returns. */
    function Expose(): (v: T)
      ensures Secret(v) == this
    {
      inner
    }
  }

  /** `Secret::new`: take ownership of a plain value and hide it. */
  function New<T>(value: T): (s: Secret<T>)
    ensures s.Expose() == value
  {
    Secret(value)
  }

  /** Wrapping and exposing are mutually inverse: a wrapper holds nothing but its value. */
  lemma WrapAddsNothing<T>(s: Secret<T>)
    ensures New(s.Expose()) == s
  {
  }

  /** Two wrappers are the same exactly when their exposed values are. */
  lemma ExposeInjective<T>(s: Secret<T>, t: Secret<T>)
    ensures s == t <==> s.Expose() == t.Expose()
  {
  }
}
