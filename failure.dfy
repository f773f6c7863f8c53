/**
 * The two values of the `failure` crate that the error model is built from,
 * reduced to what the model observes of them. Backtraces, locking and the
 * walk along a cause chain are not modelled.
 */
module Failure {
  import opened Wrappers

  /** A boxed failure that a context may have been chained onto, known only by its rendering. */
  datatype Fail = Fail(rendering: string)

  /**
   * `Context<D>`: a context value of type `D` together with the failure it was
   * attached to, if any. `Context::new` attaches it to none.
   */
  datatype Context<D> = Context(context: D, prior: Option<Fail>) {

    static function New(context: D): (c: Context<D>)
      ensures c.GetContext() == context
      ensures c.Cause().None?
    {
      Context(context, None)
    }

    function GetContext(): D { context }

    function Cause(): Option<Fail> { prior }

    /**
     * A context renders as its context value, with nothing added. This is an
     * assumption about the `failure` crate, whose source is not part of this
     * model.
     */
    function Msg(render: D -> string): string { render(context) }
  }

  /**
   * `SyncFailure<E>`: a box that makes an error of type `E` shareable between
   * threads.
   */
  datatype SyncFailure<E> = SyncFailure(inner: E) {

    static function New(e: E): (s: SyncFailure<E>)
      ensures s.inner == e
    {
      SyncFailure(e)
    }

    /**
     * A `SyncFailure` renders as the error it holds, with nothing added. This
     * is an assumption about the `failure` crate, whose source is not part of
     * this model.
     */
    function Msg(render: E -> string): string { render(inner) }
  }
}
