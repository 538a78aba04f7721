/** The client's error values and Go's `errors.Is` over a chain of wrapped errors. */
module Errors {

  /** An error value. `NotFound` is the package's sentinel `ErrNotFound`; `Plain` is any other
      error made with `errors.New`; `Decode` a payload the translator rejected; `Status` a
      response status the client does not classify; `Wrap` is `fmt.Errorf("<context>: %w", inner)`. */
  datatype Error =
    | NotFound
    | Plain(message: string)
    | Decode(message: string)
    | Status(code: int)
    | Wrap(context: string, inner: Error)

  /** `errors.Is`: the error itself, or anything it wraps, is the target. */
  predicate Is(e: Error, target: Error)
    decreases e
  {
    e == target || (e.Wrap? && Is(e.inner, target))
  }

  /** The chain `errors.Unwrap` walks, starting with the error itself. */
  function Chain(e: Error): (c: seq<Error>)
    ensures 1 <= |c| && c[0] == e
    decreases e
  {
    if e.Wrap? then [e] + Chain(e.inner) else [e]
  }

  /** `errors.Is` holds exactly when the target appears somewhere along the unwrap chain. */
  lemma {:induction false} IsInChain(e: Error, target: Error)
    ensures Is(e, target) <==> target in Chain(e)
    decreases e
  {
    if e.Wrap? {
      IsInChain(e.inner, target);
    }
  }

  /** Wrap `e` once per context, innermost first. */
  function WrapAll(e: Error, contexts: seq<string>): (w: Error)
    ensures |Chain(w)| == |Chain(e)| + |contexts|
    ensures Chain(w)[|contexts|..] == Chain(e)
    decreases |contexts|
  {
    if contexts == [] then e
    else
      var inner := WrapAll(e, contexts[..|contexts| - 1]);
      assert Chain(Wrap(contexts[|contexts| - 1], inner))[|contexts|..] == Chain(inner)[|contexts| - 1..];
      Wrap(contexts[|contexts| - 1], inner)
  }

  /** Wrapping with any amount of context neither creates nor hides a match for `errors.Is`. */
  lemma {:induction false} WrapAllPreservesIs(e: Error, contexts: seq<string>, target: Error)
    requires !target.Wrap?
    ensures Is(WrapAll(e, contexts), target) <==> Is(e, target)
    decreases |contexts|
  {
    if contexts != [] {
      WrapAllPreservesIs(e, contexts[..|contexts| - 1], target);
    }
  }

  /** `ErrNotFound` stays recognisable through any number of `%w` wrappings. */
  lemma {:induction false} WrappedNotFound(contexts: seq<string>)
    ensures Is(WrapAll(NotFound, contexts), NotFound)
  {
    WrapAllPreservesIs(NotFound, contexts, NotFound);
  }

  /** An error made with `errors.New` is never `ErrNotFound`, however it is wrapped. */
  lemma {:induction false} GenericNeverNotFound(message: string, contexts: seq<string>)
    ensures !Is(WrapAll(Plain(message), contexts), NotFound)
  {
    WrapAllPreservesIs(Plain(message), contexts, NotFound);
  }
}
