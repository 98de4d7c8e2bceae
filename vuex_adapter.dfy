/**
 * The Vuex adapter: `init` records the store, creates an interceptor and
 * subscribes to mutations and to actions; the teardown calls both
 * unsubscribers, destroys the interceptor and clears every field. The store
 * itself is never overwritten.
 */
module VuexAdapters {
  import opened Values
  import opened Host
  import opened Interception
  import FrameworkDetector

  const InterceptorName: string := "vuex-interceptor"

  class VuexAdapter {
    const kind: FrameworkDetector.FrameworkType
    var store: Store?
    var interceptor: Interceptor?
    var unsubscribeMutation: Option<Unsubscriber>
    var unsubscribeAction: Option<Unsubscriber>

    /**
     * Store, interceptor and mutation unsubscriber are set together. The action
     * unsubscriber is not tied to them: an init that fails at `subscribeAction`
     * leaves the previous one in place.
     */
    ghost predicate Valid()
      reads this
    {
      && (store == null <==> interceptor == null)
      && (store == null <==> unsubscribeMutation.None?)
      && (store == null ==> unsubscribeAction.None?)
      && (unsubscribeMutation.Some? ==> unsubscribeMutation.value.issuer == store)
    }

    constructor ()
      ensures Valid() && kind == FrameworkDetector.Vuex
      ensures store == null && interceptor == null && unsubscribeMutation.None? && unsubscribeAction.None?
    {
      kind := FrameworkDetector.Vuex;
      store := null;
      interceptor := null;
      unsubscribeMutation := None;
      unsubscribeAction := None;
    }

    /**
     * isSupported: commit, dispatch and subscribe are functions and `state` is
     * defined; `getState` is never probed.
     */
    static predicate IsSupported(target: Shape)
      ensures IsSupported(target) ==> target.truthy
      ensures IsSupported(target) ==> target.commitIsFunction && target.dispatchIsFunction && target.subscribeIsFunction
      ensures IsSupported(target) ==> target.stateDefined
    {
      target.truthy && target.commitIsFunction && target.dispatchIsFunction && target.subscribeIsFunction
      && target.stateDefined
    }

    /**
     * init(store). `subscribeAction` is not part of the support check: when it is
     * not a function the call throws after the store, the interceptor and the
     * mutation subscription are already in place.
     */
    method Init(s: Store) returns (outcome: Outcome)
      requires Valid()
      modifies this, s
      ensures Valid()
      ensures !IsSupported(old(s.Probe())) ==> outcome == Threw(UnsupportedTarget) && unchanged(this) && unchanged(s)
      ensures IsSupported(old(s.Probe())) ==>
                && store == s && GetState() == s.state
                && interceptor != null && fresh(interceptor)
                && interceptor.name == InterceptorName && interceptor.handlerCount == 0 && !interceptor.destroyed
                && unsubscribeMutation == Some(Unsubscriber(s, |old(s.calls)|))
                && s.View() == old(s.View())
      ensures IsSupported(old(s.Probe())) && old(s.subscribeAction).IsFunction() ==>
                && outcome == Ok
                && unsubscribeAction == Some(Unsubscriber(s, |old(s.calls)| + 1))
                && s.calls == old(s.calls) + [SubscribeCall, SubscribeActionCall]
      ensures IsSupported(old(s.Probe())) && !old(s.subscribeAction).IsFunction() ==>
                && outcome == Threw(TypeError)
                && unsubscribeAction == old(unsubscribeAction)
                && s.calls == old(s.calls) + [SubscribeCall]
    {
      if !IsSupported(s.Probe()) {
        return Threw(UnsupportedTarget);
      }
      store := s;
      interceptor := new Interceptor(InterceptorName);
      var m := s.CallSubscribe();
      unsubscribeMutation := Some(m);
      if !s.subscribeAction.IsFunction() {
        return Threw(TypeError);
      }
      var a := s.CallSubscribeAction();
      unsubscribeAction := Some(a);
      outcome := Ok;
    }

    /**
     * The listener passed to `subscribe` and the one passed to `subscribeAction`,
     * as the store invokes them: each registers one handler on the adapter's
     * current interceptor, and throws once the interceptor has been cleared.
     */
    method Notify() returns (outcome: Outcome)
      modifies interceptor
      ensures interceptor == null ==> outcome == Threw(TypeError)
      ensures interceptor != null ==>
                outcome == Ok && interceptor.handlerCount == old(interceptor.handlerCount) + 1
                && interceptor.destroyed == old(interceptor.destroyed)
    {
      if interceptor == null {
        return Threw(TypeError);
      }
      interceptor.AddHandler();
      outcome := Ok;
    }

    /** getState(): the store's `state` property once initialised, null otherwise. */
    function GetState(): (r: Value)
      reads this, store
      ensures store == null ==> r == Null
      ensures store != null ==> r == store.state
    {
      if store == null then Null else store.state
    }

    /**
     * destroy(), the teardown callback: call each unsubscriber that is set (on the
     * store that issued it), destroy the interceptor, then clear all four fields.
     */
    method Destroy()
      requires Valid()
      modifies this, interceptor, Issuers(unsubscribeMutation) + Issuers(unsubscribeAction)
      ensures Valid()
      ensures store == null && interceptor == null && unsubscribeMutation.None? && unsubscribeAction.None?
      ensures forall s :: s in old(Issuers(unsubscribeMutation) + Issuers(unsubscribeAction)) ==>
                && s.calls == old(s.calls) + UnsubscribeCallsOn(old(unsubscribeMutation), s)
                                           + UnsubscribeCallsOn(old(unsubscribeAction), s)
                && s.View() == old(s.View())
      ensures old(interceptor) != null ==>
                old(interceptor).destroyed && old(interceptor).handlerCount == old(interceptor.handlerCount)
      ensures old(store) == null ==> unchanged(this)
    {
      if unsubscribeMutation.Some? {
        unsubscribeMutation.value.issuer.CallUnsubscribe(unsubscribeMutation.value.handle);
      }
      if unsubscribeAction.Some? {
        unsubscribeAction.value.issuer.CallUnsubscribe(unsubscribeAction.value.handle);
      }
      if interceptor != null {
        interceptor.Destroy();
      }
      store := null;
      unsubscribeMutation := None;
      unsubscribeAction := None;
      interceptor := null;
    }
  }

  /** Whether a store has `getState` makes no difference to the Vuex check. */
  lemma SupportIgnoresGetState(target: Shape, getStateIsFunction: bool)
    ensures VuexAdapter.IsSupported(target) == VuexAdapter.IsSupported(target.(getStateIsFunction := getStateIsFunction))
  {
  }

  /**
   * Init, then the teardown it returns called twice. The teardown exists only
   * when init returned: both subscriptions are then released exactly once.
   * When init threw at `subscribeAction` the caller never receives a teardown
   * and `destroy` is private, so the mutation listener stays subscribed.
   */
  method InitAndTeardownTwice(s: Store) returns (outcome: Outcome)
    modifies s
    ensures s.View() == old(s.View())
    ensures !VuexAdapter.IsSupported(old(s.Probe())) ==> outcome == Threw(UnsupportedTarget) && s.calls == old(s.calls)
    ensures VuexAdapter.IsSupported(old(s.Probe())) && old(s.subscribeAction).IsFunction() ==>
              outcome == Ok
              && s.calls == old(s.calls) + [SubscribeCall, SubscribeActionCall,
                                            UnsubscribeCall(|old(s.calls)|), UnsubscribeCall(|old(s.calls)| + 1)]
    ensures VuexAdapter.IsSupported(old(s.Probe())) && !old(s.subscribeAction).IsFunction() ==>
              outcome == Threw(TypeError) && s.calls == old(s.calls) + [SubscribeCall]
  {
    var adapter := new VuexAdapter();
    outcome := adapter.Init(s);
    if outcome == Ok {
      adapter.Destroy();
      adapter.Destroy();
    }
  }

  /**
   * An init that throws at `subscribeAction` leaves its mutation listener
   * behind: the store still holds the subscription, and each later mutation
   * registers one more handler on a live interceptor.
   */
  method FailedInitKeepsListening(s: Store) returns (adapter: VuexAdapter, init: Outcome, notified: Outcome)
    requires VuexAdapter.IsSupported(s.Probe()) && !s.subscribeAction.IsFunction()
    modifies s
    ensures init == Threw(TypeError) && notified == Ok
    ensures adapter.unsubscribeMutation == Some(Unsubscriber(s, |old(s.calls)|))
    ensures s.calls == old(s.calls) + [SubscribeCall]
    ensures adapter.interceptor != null && adapter.interceptor.handlerCount == 1 && !adapter.interceptor.destroyed
  {
    adapter := new VuexAdapter();
    init := adapter.Init(s);
    notified := adapter.Notify();
  }
}
