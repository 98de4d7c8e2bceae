/**
 * The Redux adapter: `init` records the store, creates an interceptor,
 * replaces `store.dispatch` by a wrapper and subscribes a listener; the
 * teardown (`destroy`) puts the original dispatch back, unsubscribes,
 * destroys the interceptor and clears every field.
 */
module ReduxAdapters {
  import opened Values
  import opened Host
  import opened Interception
  import FrameworkDetector

  const InterceptorName: string := "redux-interceptor"

  /** What one call of an installed dispatch wrapper does. */
  datatype DispatchOutcome =
    | Returned(result: Value)
    | Raised(error: JsError)
    /** the original dispatch is another adapter's wrapper; the call continues there */
    | Forwarded(next: DispatchWrapper)

  class ReduxAdapter {
    const kind: FrameworkDetector.FrameworkType
    var store: Store?
    var interceptor: Interceptor?
    var originalDispatch: Option<Member>
    var unsubscribe: Option<Unsubscriber>

    /** The four fields are set together by init and cleared together by destroy. */
    ghost predicate Valid()
      reads this
    {
      && (store == null <==> interceptor == null)
      && (store == null <==> originalDispatch.None?)
      && (store == null <==> unsubscribe.None?)
      && (originalDispatch.Some? ==> originalDispatch.value.IsFunction())
      && (unsubscribe.Some? ==> unsubscribe.value.issuer == store)
    }

    constructor ()
      ensures Valid() && kind == FrameworkDetector.Redux
      ensures store == null && interceptor == null && originalDispatch.None? && unsubscribe.None?
    {
      kind := FrameworkDetector.Redux;
      store := null;
      interceptor := null;
      originalDispatch := None;
      unsubscribe := None;
    }

    /**
     * isSupported: a truthy target whose dispatch, getState and subscribe are
     * functions; the Vuex-only members are never probed.
     */
    static predicate IsSupported(target: Shape)
      ensures IsSupported(target) ==> target.truthy
      ensures IsSupported(target) ==> target.dispatchIsFunction && target.getStateIsFunction && target.subscribeIsFunction
    {
      target.truthy && target.dispatchIsFunction && target.getStateIsFunction && target.subscribeIsFunction
    }

    /**
     * init(store). On success the teardown callback it returns is `Destroy`.
     * On an unsupported store it throws before touching anything.
     */
    method Init(s: Store) returns (outcome: Outcome)
      requires Valid()
      modifies this, s
      ensures Valid()
      ensures !IsSupported(old(s.Probe())) ==> outcome == Threw(UnsupportedTarget) && unchanged(this) && unchanged(s)
      ensures IsSupported(old(s.Probe())) ==>
                && outcome == Ok
                && store == s
                && interceptor != null && fresh(interceptor)
                && interceptor.name == InterceptorName && interceptor.handlerCount == 0 && !interceptor.destroyed
                && originalDispatch == Some(old(s.dispatch))
                && s.dispatch.Wrapper? && fresh(s.dispatch.fn)
                && s.dispatch.fn.owner == this && s.dispatch.fn.store == s
                && s.dispatch != old(s.dispatch)
                && unsubscribe == Some(Unsubscriber(s, |old(s.calls)|))
                && s.calls == old(s.calls) + [SubscribeCall]
                && s.View() == old(s.View()).(dispatch := s.dispatch)
    {
      if !IsSupported(s.Probe()) {
        return Threw(UnsupportedTarget);
      }
      store := s;
      interceptor := new Interceptor(InterceptorName);
      originalDispatch := Some(s.dispatch);
      var wrapper := new DispatchWrapper(this, s);
      s.dispatch := Wrapper(wrapper);
      var u := s.CallSubscribe();
      unsubscribe := Some(u);
      outcome := Ok;
    }

    /**
     * One call `store.dispatch(action)` of a wrapper this adapter installed.
     * The wrapper reads this adapter's fields when it runs. It calls the
     * recorded original dispatch, which acts on the store it belongs to (the
     * most recently initialised one, not necessarily the wrapper's), then
     * reads the state of the store it closed over, registers one more
     * interceptor handler and returns the original's result unchanged.
     * `reply` stands for how the host's own dispatch ends; when it throws, the
     * error propagates before the state is read.
     */
    method Dispatch(w: DispatchWrapper, action: Value, reply: HostReply)
      returns (outcome: DispatchOutcome)
      requires Valid() && w.owner == this
      modifies w.store, interceptor, Homes(originalDispatch)
      ensures originalDispatch.None? ==> outcome == Raised(TypeError) && unchanged(w.store)
      ensures originalDispatch.Some? && originalDispatch.value.Native? && reply.Returns? ==>
                var home := originalDispatch.value.home;
                && interceptor != null
                && outcome == Returned(reply.result)
                && home.View() == old(home.View()).(current := reply.next)
                && (home == w.store ==>
                      w.store.calls == old(w.store.calls) + [Invoke(originalDispatch.value, action), GetStateCall])
                && (home != w.store ==>
                      && home.calls == old(home.calls) + [Invoke(originalDispatch.value, action)]
                      && w.store.calls == old(w.store.calls) + [GetStateCall]
                      && w.store.View() == old(w.store.View()))
                && interceptor.handlerCount == old(interceptor.handlerCount) + 1
                && interceptor.destroyed == old(interceptor.destroyed)
      ensures originalDispatch.Some? && originalDispatch.value.Native? && reply.Throws? ==>
                var home := originalDispatch.value.home;
                && outcome == Raised(HostError(reply.error))
                && home.calls == old(home.calls) + [Invoke(originalDispatch.value, action)]
                && home.View() == old(home.View())
                && (home != w.store ==> unchanged(w.store))
                && unchanged(interceptor)
      ensures originalDispatch.Some? && originalDispatch.value.Wrapper? && originalDispatch.value.fn.owner == this ==>
                outcome == Raised(RangeError) && unchanged(w.store) && unchanged(interceptor)
      ensures originalDispatch.Some? && originalDispatch.value.Wrapper? && originalDispatch.value.fn.owner != this ==>
                outcome == Forwarded(originalDispatch.value.fn) && unchanged(w.store) && unchanged(interceptor)
    {
      if originalDispatch.None? {
        return Raised(TypeError);
      }
      var original := originalDispatch.value;
      match original
      case Native(_, home) =>
        var thrown, result := home.CallNative(original, action, reply);
        if thrown.Some? {
          return Raised(thrown.value);
        }
        var _ := w.store.CallGetState();
        interceptor.AddHandler();
        outcome := Returned(result);
      case Wrapper(fn) =>
        // the original reads this.originalDispatch again: it is itself, so the recursion never ends
        if fn.owner == this {
          outcome := Raised(RangeError);
        } else {
          outcome := Forwarded(fn);
        }
    }

    /** getState(): the store's own getState() once initialised, null otherwise. */
    method GetState() returns (r: Value)
      requires Valid()
      modifies store
      ensures store == null ==> r == Null
      ensures store != null ==> r == old(store.current) && store.calls == old(store.calls) + [GetStateCall]
      ensures store != null ==> store.View() == old(store.View())
    {
      if store == null {
        return Null;
      }
      r := store.CallGetState();
    }

    /**
     * destroy(), the teardown callback: restore the original dispatch, call the
     * unsubscriber, destroy the interceptor, then clear all four fields.
     */
    method Destroy()
      requires Valid()
      modifies this, store, interceptor
      ensures Valid()
      ensures store == null && interceptor == null && originalDispatch.None? && unsubscribe.None?
      ensures old(store) != null ==>
                && old(store).View() == old(store.View()).(dispatch := old(originalDispatch).value)
                && old(store).calls == old(store.calls) + [UnsubscribeCall(old(unsubscribe).value.handle)]
                && old(interceptor).destroyed
                && old(interceptor).handlerCount == old(interceptor.handlerCount)
      ensures old(store) == null ==> unchanged(this)
    {
      if store != null && originalDispatch.Some? {
        store.dispatch := originalDispatch.value;
      }
      if unsubscribe.Some? {
        unsubscribe.value.issuer.CallUnsubscribe(unsubscribe.value.handle);
      }
      if interceptor != null {
        interceptor.Destroy();
      }
      store := null;
      originalDispatch := None;
      unsubscribe := None;
      interceptor := null;
    }
  }

  /** Whether a store has `commit` or a defined `state` makes no difference to the Redux check. */
  lemma SupportIgnoresVuexMembers(target: Shape, commitIsFunction: bool, stateDefined: bool)
    ensures ReduxAdapter.IsSupported(target)
         == ReduxAdapter.IsSupported(target.(commitIsFunction := commitIsFunction, stateDefined := stateDefined))
  {
  }

  /** Init followed by two teardowns leaves every member of the store as it was and unsubscribes exactly once. */
  method InitAndTeardownTwice(s: Store) returns (outcome: Outcome)
    modifies s
    ensures s.View() == old(s.View())
    ensures outcome == Ok <==> ReduxAdapter.IsSupported(old(s.Probe()))
    ensures outcome == Ok ==> s.calls == old(s.calls) + [SubscribeCall, UnsubscribeCall(|old(s.calls)|)]
    ensures outcome != Ok ==> s.calls == old(s.calls)
  {
    var adapter := new ReduxAdapter();
    outcome := adapter.Init(s);
    adapter.Destroy();
    adapter.Destroy();
  }

  /**
   * Initialising the same adapter twice without a teardown records the first
   * wrapper as the "original": the next dispatch recurses until the engine
   * throws, and nothing reaches the host's own dispatch.
   */
  method InitTwiceThenDispatch(s: Store, action: Value, reply: HostReply) returns (outcome: DispatchOutcome)
    requires ReduxAdapter.IsSupported(s.Probe())
    modifies s
    ensures outcome == Raised(RangeError)
    ensures s.calls == old(s.calls) + [SubscribeCall, SubscribeCall]
  {
    var adapter := new ReduxAdapter();
    var _ := adapter.Init(s);
    var _ := adapter.Init(s);
    outcome := adapter.Dispatch(s.dispatch.fn, action, reply);
  }

  /**
   * After two inits the teardown puts back what the second init saved, which
   * is the first wrapper, not the host's dispatch. That wrapper reads the
   * fields the teardown cleared, so the next dispatch throws a TypeError
   * and the host's dispatch is never reached again.
   */
  method InitTwiceTeardownThenDispatch(s: Store, action: Value, reply: HostReply) returns (outcome: DispatchOutcome)
    requires ReduxAdapter.IsSupported(s.Probe())
    modifies s
    ensures s.dispatch != old(s.dispatch) && s.dispatch.Wrapper?
    ensures outcome == Raised(TypeError)
    ensures s.calls == old(s.calls) + [SubscribeCall, SubscribeCall, UnsubscribeCall(|old(s.calls)| + 1)]
  {
    var adapter := new ReduxAdapter();
    var _ := adapter.Init(s);
    var _ := adapter.Init(s);
    adapter.Destroy();
    outcome := adapter.Dispatch(s.dispatch.fn, action, reply);
  }

  /**
   * Initialising one adapter on a second store without a teardown records
   * the second store's dispatch as the "original". The first store keeps the
   * first wrapper, so a dispatch on the first store moves the second store's
   * state and only reads the first store's.
   */
  method InitOnTwoStoresThenDispatch(s1: Store, s2: Store, action: Value, reply: HostReply)
    returns (outcome: DispatchOutcome)
    requires s1 != s2 && ReduxAdapter.IsSupported(s1.Probe()) && ReduxAdapter.IsSupported(s2.Probe())
    requires s2.dispatch.Native? && s2.dispatch.home == s2 && reply.Returns?
    modifies s1, s2
    ensures outcome == Returned(reply.result)
    ensures s2.current == reply.next && s2.calls == old(s2.calls) + [SubscribeCall, Invoke(old(s2.dispatch), action)]
    ensures s1.current == old(s1.current) && s1.calls == old(s1.calls) + [SubscribeCall, GetStateCall]
  {
    var adapter := new ReduxAdapter();
    var _ := adapter.Init(s1);
    var first := s1.dispatch.fn;
    var _ := adapter.Init(s2);
    outcome := adapter.Dispatch(first, action, reply);
  }

  /**
   * The teardown after inits on two stores only restores and unsubscribes
   * the second. The first keeps the first wrapper and its subscription; that
   * wrapper reads the cleared fields, so every later dispatch on the first
   * store throws a TypeError.
   */
  method InitOnTwoStoresTeardownThenDispatch(s1: Store, s2: Store, action: Value, reply: HostReply)
    returns (outcome: DispatchOutcome)
    requires s1 != s2 && ReduxAdapter.IsSupported(s1.Probe()) && ReduxAdapter.IsSupported(s2.Probe())
    modifies s1, s2
    ensures outcome == Raised(TypeError)
    ensures s1.dispatch != old(s1.dispatch) && s1.dispatch.Wrapper?
    ensures s1.calls == old(s1.calls) + [SubscribeCall]
    ensures s2.View() == old(s2.View())
    ensures s2.calls == old(s2.calls) + [SubscribeCall, UnsubscribeCall(|old(s2.calls)|)]
  {
    var adapter := new ReduxAdapter();
    var _ := adapter.Init(s1);
    var _ := adapter.Init(s2);
    adapter.Destroy();
    outcome := adapter.Dispatch(s1.dispatch.fn, action, reply);
  }
}
