/** The local auth context: a single boolean state cell set by `login` and
    cleared by `logout`, and the context value seen outside any provider. */
module Providers {

  datatype AuthCall = Login | Logout

  /** The effect of one call on the flag. */
  function Apply(isAuthenticated: bool, call: AuthCall): bool
  {
    call == Login
  }

  /** The flag after a sequence of calls, first call first. */
  function Run(isAuthenticated: bool, calls: seq<AuthCall>): bool
    decreases |calls|
  {
    if calls == [] then isAuthenticated else Run(Apply(isAuthenticated, calls[0]), calls[1..])
  }

  /** After any non-empty call sequence the flag says whether the last call was `login`. */
  lemma {:induction false} RunIsLastCall(isAuthenticated: bool, calls: seq<AuthCall>)
    requires calls != []
    ensures Run(isAuthenticated, calls) == (calls[|calls| - 1] == Login)
    decreases |calls|
  {
    if |calls| > 1 {
      RunIsLastCall(Apply(isAuthenticated, calls[0]), calls[1..]);
    }
  }

  /** Repeating a call changes nothing. */
  lemma {:induction false} CallsIdempotent(isAuthenticated: bool, call: AuthCall, n: nat)
    requires n >= 1
    ensures Run(isAuthenticated, seq(n, _ => call)) == Apply(isAuthenticated, call)
  {
    RunIsLastCall(isAuthenticated, seq(n, _ => call));
  }

  /** The `Providers` component's state: `useState(false)` and its two setters. */
  class AuthProvider {
    var isAuthenticated: bool

    constructor ()
      ensures !isAuthenticated
    {
      isAuthenticated := false;
    }

    method Login()
      modifies this
      ensures isAuthenticated
      ensures isAuthenticated == Apply(old(isAuthenticated), AuthCall.Login)
    {
      isAuthenticated := true;
    }

    method Logout()
      modifies this
      ensures !isAuthenticated
      ensures isAuthenticated == Apply(old(isAuthenticated), AuthCall.Logout)
    {
      isAuthenticated := false;
    }
  }

  /** The value `useAuth` returns outside a provider: unauthenticated, and
      `login`/`logout` do nothing. */
  datatype DefaultContext = DefaultContext(isAuthenticated: bool)

  const Default: DefaultContext := DefaultContext(false)

  function DefaultApply(ctx: DefaultContext, call: AuthCall): DefaultContext
  {
    ctx
  }

  function DefaultRun(ctx: DefaultContext, calls: seq<AuthCall>): DefaultContext
    decreases |calls|
  {
    if calls == [] then ctx else DefaultRun(DefaultApply(ctx, calls[0]), calls[1..])
  }

  /** Outside a provider no call sequence changes the context, so it never
      authenticates, while inside one a last `login` does. */
  lemma {:induction false} DefaultStaysAnonymous(ctx: DefaultContext, calls: seq<AuthCall>)
    ensures DefaultRun(ctx, calls) == ctx
    ensures !DefaultRun(Default, calls).isAuthenticated
    ensures calls != [] && calls[|calls| - 1] == Login ==> Run(false, calls) != DefaultRun(Default, calls).isAuthenticated
    decreases |calls|
  {
    if calls != [] {
      DefaultStaysAnonymous(DefaultApply(ctx, calls[0]), calls[1..]);
      DefaultStaysAnonymous(DefaultApply(Default, calls[0]), calls[1..]);
      RunIsLastCall(false, calls);
    }
  }
}
