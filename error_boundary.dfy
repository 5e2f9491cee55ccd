/** The render-failure boundary of `src/components/ErrorBoundary.tsx` and its
    one-shot guard against reloading a stale deployment forever.

    The browser is reduced to what the boundary touches: the session storage
    (`Session`), and a trace of the calls the boundary makes out of itself
    (the `onError` and `onReset` props and `window.location.reload`), kept by
    a `Host` object that every boundary on the page shares.  React's
    lifecycle is replaced by explicit method calls. */
module Boundary {
  import opened Wrappers
  import opened ChunkErrors

  // ---------------------------------------------------------------------------
  // Session storage and the one-shot reload guard.

  const ChunkReloadKey := "n3wth:chunk-reload"
  const ChunkReloadMark := "true"

  /** What `window.sessionStorage` looks like to the guard. */
  datatype Session =
    | NoWindow                    // `typeof window === 'undefined'`
    | StorageAccessThrows         // reading `window.sessionStorage` throws
    | NoSessionStorage            // `window.sessionStorage` is null or undefined
    | Storage(items: map<string, string>, getThrows: bool, setThrows: bool)

  /** The reload flag is already in the session. */
  predicate Marked(s: Session) {
    s.Storage? && ChunkReloadKey in s.items && s.items[ChunkReloadKey] == ChunkReloadMark
  }

  /** A storage that answers both `getItem` and `setItem`. */
  predicate Usable(s: Session) {
    s.Storage? && !s.getThrows && !s.setThrows
  }

  /** The guard's answer and the session afterwards. */
  datatype Guard = Guard(granted: bool, session: Session)

  /** `shouldAutoReloadChunk`: grants a reload only by writing the flag, and
      only when the flag was not there; every other path, including each
      `catch`, answers false and writes nothing. */
  function ShouldAutoReloadChunk(s: Session): (g: Guard)
    ensures g.granted <==> Usable(s) && !Marked(s)
    ensures g.granted ==> g.session == s.(items := s.items[ChunkReloadKey := ChunkReloadMark])
    ensures !g.granted ==> g.session == s
  {
    match s
    case NoWindow => Guard(false, s)
    case StorageAccessThrows => Guard(false, s)
    case NoSessionStorage => Guard(false, s)
    case Storage(items, getThrows, setThrows) =>
      if getThrows then Guard(false, s)
      else if ChunkReloadKey in items && items[ChunkReloadKey] == ChunkReloadMark then Guard(false, s)
      else if setThrows then Guard(false, s)
      else Guard(true, Storage(items[ChunkReloadKey := ChunkReloadMark], getThrows, setThrows))
  }

  /** After the guard has granted, the session is marked, and a marked
      session is never granted again and never written again. */
  lemma GrantMarksSession(s: Session)
    ensures ShouldAutoReloadChunk(s).granted ==> Marked(ShouldAutoReloadChunk(s).session)
    ensures Marked(s) ==> ShouldAutoReloadChunk(s) == Guard(false, s)
  {
  }

  /** Asks the guard `n` times in a row; the number of grants and the
      session at the end. */
  function AskRepeatedly(s: Session, n: nat): (nat, Session)
    decreases n
  {
    if n == 0 then (0, s)
    else
      var g := ShouldAutoReloadChunk(s);
      var (rest, last) := AskRepeatedly(g.session, n - 1);
      ((if g.granted then 1 else 0) + rest, last)
  }

  /** However often it is asked within one session, the guard grants at most
      once; exactly once when the session starts usable and unmarked. */
  lemma {:induction false} GuardGrantsAtMostOnce(s: Session, n: nat)
    ensures AskRepeatedly(s, n).0 <= 1
    ensures Marked(s) ==> AskRepeatedly(s, n) == (0, s)
    ensures Usable(s) && !Marked(s) && n > 0 ==> AskRepeatedly(s, n).0 == 1
    decreases n
  {
    if n > 0 {
      var g := ShouldAutoReloadChunk(s);
      GrantMarksSession(s);
      GuardGrantsAtMostOnce(g.session, n - 1);
      if g.granted {
        GuardGrantsAtMostOnce(g.session, n - 1);
      }
    }
  }

  // ---------------------------------------------------------------------------
  // Reset keys.

  /** Some position below `|prev|` at or after `i` holds different keys. */
  function SomeKeyDiffersFrom<K(==)>(prev: seq<K>, next: seq<K>, i: nat): (b: bool)
    requires |prev| == |next|
    decreases |prev| - i
    ensures b <==> exists k :: i <= k < |prev| && prev[k] != next[k]
  {
    if i >= |prev| then false
    else if prev[i] != next[i] then true
    else
      var rest := SomeKeyDiffersFrom(prev, next, i + 1);
      assert (exists k :: i <= k < |prev| && prev[k] != next[k]) ==> rest by {
        if exists k :: i <= k < |prev| && prev[k] != next[k] {
          var k :| i <= k < |prev| && prev[k] != next[k];
          assert k != i;
        }
      }
      rest
  }

  /** `haveResetKeysChanged`; keys are compared with `Object.is`, here the
      equality of `K`.  `None` is an absent `resetKeys` prop. */
  function HaveResetKeysChanged<K(==)>(prev: Option<seq<K>>, next: Option<seq<K>>): (changed: bool)
    ensures changed <==>
              && prev.Some? && next.Some?
              && (|prev.value| != |next.value|
                  || exists k :: 0 <= k < |prev.value| && prev.value[k] != next.value[k])
  {
    if prev.None? || next.None? then false
    else if |prev.value| != |next.value| then true
    else SomeKeyDiffersFrom(prev.value, next.value, 0)
  }

  /** The key lists changed exactly when both are present and differ. */
  lemma ResetKeysChangedIffDifferent<K>(prev: Option<seq<K>>, next: Option<seq<K>>)
    ensures HaveResetKeysChanged(prev, next) <==> prev.Some? && next.Some? && prev != next
  {
    if prev.Some? && next.Some? && |prev.value| == |next.value| {
      var p, q := prev.value, next.value;
      assert p != q ==> exists k :: 0 <= k < |p| && p[k] != q[k];
    }
  }

  /** Comparing two key lists does not depend on which is the previous one,
      and a list never differs from itself. */
  lemma ResetKeysChangedSymmetric<K>(prev: Option<seq<K>>, next: Option<seq<K>>)
    ensures HaveResetKeysChanged(prev, next) == HaveResetKeysChanged(next, prev)
    ensures !HaveResetKeysChanged(prev, prev)
  {
    ResetKeysChangedIffDifferent(prev, next);
    ResetKeysChangedIffDifferent(next, prev);
    ResetKeysChangedIffDifferent(prev, prev);
  }

  // ---------------------------------------------------------------------------
  // The boundary's state, what it renders, and what it calls.

  datatype BoundaryState = BoundaryState(hasError: bool, error: Thrown)

  /** `{ hasError: false, error: null }`, the initial and the cleared state. */
  const Cleared := BoundaryState(false, Null)

  /** The substitute handed to the fallback when the stored error is nullish. */
  const UnknownError := ErrorObject("Unknown error")

  /** What `render` returns. */
  datatype View =
    | Children                     // `this.props.children`
    | FallbackNode                 // a `fallback` that is an element
    | FallbackRendered(error: Thrown)  // a `fallback` render function, called with this error

  /** One call the boundary makes out of itself. */
  datatype Effect = OnErrorCalled(error: Thrown) | OnResetCalled | PageReloaded

  function ReloadCount(trace: seq<Effect>): (n: nat)
    ensures n <= |trace|
  {
    if trace == [] then 0
    else ReloadCount(trace[..|trace| - 1]) + (if trace[|trace| - 1] == PageReloaded then 1 else 0)
  }

  lemma {:induction false} ReloadCountAppend(a: seq<Effect>, b: seq<Effect>)
    ensures ReloadCount(a + b) == ReloadCount(a) + ReloadCount(b)
    decreases |b|
  {
    if b == [] {
      assert a + b == a;
    } else {
      assert (a + b)[..|a + b| - 1] == a + b[..|b| - 1];
      ReloadCountAppend(a, b[..|b| - 1]);
    }
  }

  /** What `componentDidCatch` does: the calls it makes, in order, and the
      session afterwards.  The guard is consulted, and may write, only for
      a chunk error. */
  datatype Catch = Catch(effects: seq<Effect>, session: Session)

  function DidCatch(s: Session, e: Thrown, hasOnError: bool): (c: Catch)
    ensures hasOnError ==> |c.effects| > 0 && c.effects[0] == OnErrorCalled(e)
    ensures ReloadCount(c.effects) == (if IsChunkError(e) && ShouldAutoReloadChunk(s).granted then 1 else 0)
    ensures c.session == (if IsChunkError(e) then ShouldAutoReloadChunk(s).session else s)
  {
    var notified := if hasOnError then [OnErrorCalled(e)] else [];
    assert ReloadCount(notified) == 0 by {
      if hasOnError {
        assert notified[..0] == [];
      }
    }
    if IsChunkError(e) && ShouldAutoReloadChunk(s).granted then
      ReloadCountAppend(notified, [PageReloaded]);
      assert [PageReloaded][..0] == [];
      Catch(notified + [PageReloaded], ShouldAutoReloadChunk(s).session)
    else if IsChunkError(e) then
      Catch(notified, ShouldAutoReloadChunk(s).session)
    else
      Catch(notified, s)
  }

  /** `componentDidCatch` makes no other calls: the optional `onError` and
      at most one reload, in that order. */
  lemma DidCatchMakesNoOtherCalls(s: Session, e: Thrown, hasOnError: bool)
    ensures var c := DidCatch(s, e, hasOnError);
      && |c.effects| == (if hasOnError then 1 else 0) + ReloadCount(c.effects)
      && forall k :: 0 <= k < |c.effects| ==>
           c.effects[k] == (if hasOnError && k == 0 then OnErrorCalled(e) else PageReloaded)
  {
  }

  /** Catches `errors` one after the other in the same session. */
  function CatchAll(s: Session, errors: seq<Thrown>, hasOnError: bool): (c: Catch)
    decreases |errors|
  {
    if errors == [] then Catch([], s)
    else
      var first := DidCatch(s, errors[0], hasOnError);
      var rest := CatchAll(first.session, errors[1..], hasOnError);
      Catch(first.effects + rest.effects, rest.session)
  }

  /** However many errors are caught in one session, the page is reloaded at
      most once; and when the session starts usable and unmarked, the first
      chunk error reloads it, so a stream with a chunk error in it reloads
      exactly once. */
  lemma {:induction false} ReloadAtMostOncePerSession(s: Session, errors: seq<Thrown>, hasOnError: bool)
    ensures ReloadCount(CatchAll(s, errors, hasOnError).effects) <= 1
    ensures Marked(s) ==> ReloadCount(CatchAll(s, errors, hasOnError).effects) == 0
    ensures Marked(s) ==> CatchAll(s, errors, hasOnError).session == s
    ensures Usable(s) && !Marked(s) && (exists k :: 0 <= k < |errors| && IsChunkError(errors[k])) ==>
              ReloadCount(CatchAll(s, errors, hasOnError).effects) == 1
    decreases |errors|
  {
    if errors != [] {
      var first := DidCatch(s, errors[0], hasOnError);
      var rest := CatchAll(first.session, errors[1..], hasOnError);
      ReloadCountAppend(first.effects, rest.effects);
      GrantMarksSession(s);
      ReloadAtMostOncePerSession(first.session, errors[1..], hasOnError);
      if Usable(s) && !Marked(s) && !IsChunkError(errors[0]) && exists k :: 0 <= k < |errors| && IsChunkError(errors[k]) {
        var k :| 0 <= k < |errors| && IsChunkError(errors[k]);
        assert errors[1..][k - 1] == errors[k];
      }
    }
  }

  /** The first chunk error in a usable, unmarked session is reported and
      then reloads the page, marking the session. */
  lemma CatchInFreshSession(s: Session, e: Thrown, hasOnError: bool)
    requires IsChunkError(e) && Usable(s) && !Marked(s)
    ensures DidCatch(s, e, hasOnError).effects ==
              (if hasOnError then [OnErrorCalled(e)] else []) + [PageReloaded]
    ensures Marked(DidCatch(s, e, hasOnError).session)
  {
  }

  /** In a marked session any error is only reported, and the session stays
      as it is. */
  lemma CatchInMarkedSession(s: Session, e: Thrown, hasOnError: bool)
    requires Marked(s)
    ensures DidCatch(s, e, hasOnError) == Catch(if hasOnError then [OnErrorCalled(e)] else [], s)
  {
  }

  /** Catching a non-empty stream is catching its first error, then the
      rest in the session that left behind. */
  lemma CatchAllCons(s: Session, e: Thrown, rest: seq<Thrown>, hasOnError: bool)
    ensures CatchAll(s, [e] + rest, hasOnError) ==
              var first := DidCatch(s, e, hasOnError);
              var tail := CatchAll(first.session, rest, hasOnError);
              Catch(first.effects + tail.effects, tail.session)
  {
    assert ([e] + rest)[0] == e && ([e] + rest)[1..] == rest;
  }

  /** Catching two errors is catching the first, then the second in the
      session the first left behind. */
  lemma CatchTwo(s: Session, e1: Thrown, e2: Thrown, hasOnError: bool)
    ensures CatchAll(s, [e1, e2], hasOnError).effects ==
              DidCatch(s, e1, hasOnError).effects + DidCatch(DidCatch(s, e1, hasOnError).session, e2, hasOnError).effects
  {
    var first := DidCatch(s, e1, hasOnError);
    assert [e1, e2] == [e1] + [e2];
    CatchAllCons(s, e1, [e2], hasOnError);
    assert [e2] == [e2] + [];
    CatchAllCons(first.session, e2, [], hasOnError);
    var second := DidCatch(first.session, e2, hasOnError);
    assert CatchAll(second.session, [], hasOnError).effects == [];
    assert second.effects + [] == second.effects;
  }

  /** Two chunk errors in a row in a fresh session: one reload, after the
      first; the second is only reported. */
  lemma TwoChunkErrorsReloadOnce(e1: Thrown, e2: Thrown)
    requires IsChunkError(e1) && IsChunkError(e2)
    ensures CatchAll(Storage(map[], false, false), [e1, e2], true).effects ==
              [OnErrorCalled(e1), PageReloaded, OnErrorCalled(e2)]
  {
    var s := Storage(map[], false, false);
    CatchTwo(s, e1, e2, true);
    CatchInFreshSession(s, e1, true);
    CatchInMarkedSession(DidCatch(s, e1, true).session, e2, true);
  }

  /** The page the boundaries live on: its session storage and the calls
      made out of the boundaries, in order. */
  class Host {
    var session: Session
    var trace: seq<Effect>

    constructor (s: Session)
      ensures session == s && trace == []
    {
      session := s;
      trace := [];
    }

    /** `window.location.reload()` has been called this many times. */
    function Reloads(): nat
      reads this
    {
      ReloadCount(trace)
    }
  }

  class ErrorBoundary<K(==)> {
    const host: Host
    const hasOnError: bool          // an `onError` prop is given
    const hasOnReset: bool          // an `onReset` prop is given
    const fallbackIsRender: bool    // the `fallback` prop is a function
    var resetKeys: Option<seq<K>>   // the current `resetKeys` prop
    var state: BoundaryState

    constructor (host: Host, hasOnError: bool, hasOnReset: bool, fallbackIsRender: bool, resetKeys: Option<seq<K>>)
      ensures this.host == host && this.hasOnError == hasOnError && this.hasOnReset == hasOnReset
      ensures this.fallbackIsRender == fallbackIsRender && this.resetKeys == resetKeys
      ensures state == Cleared
    {
      this.host := host;
      this.hasOnError := hasOnError;
      this.hasOnReset := hasOnReset;
      this.fallbackIsRender := fallbackIsRender;
      this.resetKeys := resetKeys;
      state := Cleared;
    }

    /** `getDerivedStateFromError`: the boundary is failed and keeps the very
        value that was thrown. */
    static function GetDerivedStateFromError(e: Thrown): (s: BoundaryState)
      ensures s.hasError && s.error == e
    {
      BoundaryState(true, e)
    }

    /** React applying `getDerivedStateFromError` to a render failure below. */
    method ReceiveError(e: Thrown)
      modifies this
      ensures state == GetDerivedStateFromError(e)
      ensures resetKeys == old(resetKeys)
    {
      state := GetDerivedStateFromError(e);
    }

    /** `componentDidCatch`: reports to `onError` first, then reloads the page
        when the error is a chunk failure and the guard grants it. */
    method ComponentDidCatch(e: Thrown)
      modifies host
      ensures host.trace == old(host.trace) + DidCatch(old(host.session), e, hasOnError).effects
      ensures host.session == DidCatch(old(host.session), e, hasOnError).session
      ensures host.Reloads() == old(host.Reloads()) +
                (if IsChunkError(e) && ShouldAutoReloadChunk(old(host.session)).granted then 1 else 0)
    {
      ghost var before := host.trace;
      if hasOnError {
        host.trace := host.trace + [OnErrorCalled(e)];
      }
      if IsChunkError(e) {
        var g := ShouldAutoReloadChunk(host.session);
        host.session := g.session;
        if g.granted {
          host.trace := host.trace + [PageReloaded];
        }
      }
      assert host.trace == before + DidCatch(old(host.session), e, hasOnError).effects;
      ReloadCountAppend(before, DidCatch(old(host.session), e, hasOnError).effects);
    }

    /** `resetErrorBoundary`: calls `onReset`, then clears the state. */
    method ResetErrorBoundary()
      modifies this, host
      ensures state == Cleared && resetKeys == old(resetKeys)
      ensures host.trace == old(host.trace) + (if hasOnReset then [OnResetCalled] else [])
      ensures host.session == old(host.session)
    {
      if hasOnReset {
        host.trace := host.trace + [OnResetCalled];
      }
      state := Cleared;
    }

    /** `componentDidUpdate`: resets only a failed boundary whose reset keys
        changed; otherwise nothing changes at all. */
    method ComponentDidUpdate(prevKeys: Option<seq<K>>)
      modifies this, host
      ensures resetKeys == old(resetKeys) && host.session == old(host.session)
      ensures old(state.hasError) && HaveResetKeysChanged(prevKeys, resetKeys) ==>
                state == Cleared &&
                host.trace == old(host.trace) + (if hasOnReset then [OnResetCalled] else [])
      ensures !(old(state.hasError) && HaveResetKeysChanged(prevKeys, resetKeys)) ==>
                state == old(state) && host.trace == old(host.trace)
    {
      if state.hasError && HaveResetKeysChanged(prevKeys, resetKeys) {
        ResetErrorBoundary();
      }
    }

    /** A parent re-rendering the boundary with new `resetKeys`, followed by
        `componentDidUpdate` with the previous ones. */
    method Rerender(nextKeys: Option<seq<K>>)
      modifies this, host
      ensures resetKeys == nextKeys && host.session == old(host.session)
      ensures old(state.hasError) && HaveResetKeysChanged(old(resetKeys), nextKeys) ==>
                state == Cleared &&
                host.trace == old(host.trace) + (if hasOnReset then [OnResetCalled] else [])
      ensures !(old(state.hasError) && HaveResetKeysChanged(old(resetKeys), nextKeys)) ==>
                state == old(state) && host.trace == old(host.trace)
    {
      var prevKeys := resetKeys;
      resetKeys := nextKeys;
      ComponentDidUpdate(prevKeys);
    }

    /** `render`: the children exactly when no error is held; otherwise the
        fallback, which, when it is a render function, always receives a
        non-nullish error: the stored one, or "Unknown error" in its place. */
    function Render(): (v: View)
      reads this
      ensures v == Children <==> !state.hasError
      ensures state.hasError ==> (v.FallbackRendered? <==> fallbackIsRender)
      ensures v.FallbackRendered? ==> !IsNullish(v.error)
      ensures v.FallbackRendered? ==>
                v.error == (if IsNullish(state.error) then UnknownError else state.error)
    {
      if !state.hasError then Children
      else
        var fallbackError := if IsNullish(state.error) then UnknownError else state.error;
        if fallbackIsRender then FallbackRendered(fallbackError) else FallbackNode
    }
  }

  /** A boundary that catches a chunk error in a fresh session shows its
      fallback with that error and reloads the page; catching a second one
      reports it but does not reload again; "try again" brings the children
      back. */
  method ChunkErrorScenario(e1: Thrown, e2: Thrown) returns (reloads: nat, shown: View, afterReset: View)
    requires IsChunkError(e1) && IsChunkError(e2) && !IsNullish(e2)
    ensures reloads == 1
    ensures shown == FallbackRendered(e2)
    ensures afterReset == Children
  {
    var start := Storage(map[], false, false);
    var host := new Host(start);
    var b := new ErrorBoundary<int>(host, true, false, true, None);
    b.ReceiveError(e1);
    CatchInFreshSession(start, e1, true);
    b.ComponentDidCatch(e1);
    assert host.Reloads() == 1;
    b.ReceiveError(e2);
    CatchInMarkedSession(host.session, e2, true);
    b.ComponentDidCatch(e2);
    reloads := host.Reloads();
    shown := b.Render();
    b.ResetErrorBoundary();
    afterReset := b.Render();
  }
}
