/**
 * The host application's store as the adapters see it: an external object
 * whose members are probed by `typeof`, called, and (for Redux's `dispatch`)
 * overwritten. What the host library's own functions compute is not visible,
 * so their results are parameters of the calls below; every call the adapters
 * make into the store is appended to `calls`, in order.
 */
module Host {
  import opened Values

  /** The function object an adapter installs in place of the store's `dispatch`. */
  class DispatchWrapper {
    /** the adapter whose fields the wrapper reads at call time */
    const owner: object
    /** the store the wrapper closed over at `init` */
    const store: Store

    constructor (owner: object, store: Store)
      ensures this.owner == owner && this.store == store
    {
      this.owner := owner;
      this.store := store;
    }
  }

  /** What a member of the store holds. */
  datatype Member =
    | Absent                    // undefined
    | NonFunction               // some value that is not callable
    | Native(id: nat, home: Store) // one of the host library's own functions, bound to the store it was created for
    | Wrapper(fn: DispatchWrapper)
  {
    predicate IsFunction() {
      Native? || Wrapper?
    }
  }

  /** The function that `subscribe` or `subscribeAction` returned: it belongs to the store that issued it. */
  datatype Unsubscriber = Unsubscriber(issuer: Store, handle: nat)

  /** One call from an adapter into the store. */
  datatype Call =
    | Invoke(fn: Member, action: Value) // a call of the original dispatch
    | GetStateCall
    | SubscribeCall
    | SubscribeActionCall
    | UnsubscribeCall(handle: nat)

  /** The facts a duck-typed `isSupported` check can observe about a target. */
  datatype Shape = Shape(
    truthy: bool,
    dispatchIsFunction: bool,
    getStateIsFunction: bool,
    subscribeIsFunction: bool,
    commitIsFunction: bool,
    stateDefined: bool)

  /** An error thrown to the caller. */
  datatype JsError =
    | UnsupportedTarget // the adapter's own `throw new Error(...)` in init
    | TypeError         // a call of null, undefined or a non-function
    | RangeError        // the engine's stack-depth limit, reached by unbounded recursion
    | HostError(id: nat) // an error thrown by the host library's own code, passed on unchanged

  /** How a call of the host's own dispatch ends: it returns a result and leaves a new state, or it throws. */
  datatype HostReply = Returns(result: Value, next: Value) | Throws(error: nat)

  /** Everything an observer can read on a store besides the log of calls made into it. */
  datatype StoreView = StoreView(
    dispatch: Member,
    getState: Member,
    subscribe: Member,
    subscribeAction: Member,
    commit: Member,
    replaceState: Member,
    state: Value,
    current: Value)

  datatype Outcome = Ok | Threw(error: JsError)

  class Store {
    var dispatch: Member
    var getState: Member
    var subscribe: Member
    var subscribeAction: Member
    var commit: Member
    var replaceState: Member
    /** the `state` property; Undefined when missing */
    var state: Value
    /** what the store's own getState() returns */
    var current: Value
    var calls: seq<Call>

    constructor (dispatch: Member, getState: Member, subscribe: Member, subscribeAction: Member,
                 commit: Member, replaceState: Member, state: Value, current: Value)
      ensures this.dispatch == dispatch && this.getState == getState && this.subscribe == subscribe
      ensures this.subscribeAction == subscribeAction && this.commit == commit && this.replaceState == replaceState
      ensures this.state == state && this.current == current && calls == []
    {
      this.dispatch := dispatch;
      this.getState := getState;
      this.subscribe := subscribe;
      this.subscribeAction := subscribeAction;
      this.commit := commit;
      this.replaceState := replaceState;
      this.state := state;
      this.current := current;
      calls := [];
    }

    /** A store object is truthy; its members are checked with `typeof ... === 'function'`. */
    function Probe(): (sh: Shape)
      reads this
      ensures sh.truthy
      ensures sh.dispatchIsFunction == dispatch.IsFunction() && sh.getStateIsFunction == getState.IsFunction()
      ensures sh.subscribeIsFunction == subscribe.IsFunction() && sh.commitIsFunction == commit.IsFunction()
      ensures sh.stateDefined == (state != Undefined)
    {
      Shape(true, dispatch.IsFunction(), getState.IsFunction(), subscribe.IsFunction(), commit.IsFunction(),
            state != Undefined)
    }

    function View(): StoreView
      reads this
    {
      StoreView(dispatch, getState, subscribe, subscribeAction, commit, replaceState, state, current)
    }

    /**
     * The host's own dispatch function `fn`, bound to this store, runs and ends
     * as `reply` says: a return moves the state to the reply's next state, a
     * throw leaves it.
     */
    method CallNative(fn: Member, action: Value, reply: HostReply) returns (thrown: Option<JsError>, r: Value)
      modifies this`calls, this`current
      ensures calls == old(calls) + [Invoke(fn, action)]
      ensures reply.Returns? ==> thrown.None? && current == reply.next && r == reply.result
      ensures reply.Throws? ==> thrown == Some(HostError(reply.error)) && current == old(current)
    {
      calls := calls + [Invoke(fn, action)];
      match reply
      case Returns(result, next) =>
        current := next;
        thrown, r := None, result;
      case Throws(e) =>
        thrown, r := Some(HostError(e)), Undefined;
    }

    method CallGetState() returns (s: Value)
      modifies this`calls
      ensures calls == old(calls) + [GetStateCall] && s == current
    {
      calls := calls + [GetStateCall];
      s := current;
    }

    method CallSubscribe() returns (u: Unsubscriber)
      modifies this`calls
      ensures calls == old(calls) + [SubscribeCall]
      ensures u == Unsubscriber(this, |old(calls)|)
    {
      u := Unsubscriber(this, |calls|);
      calls := calls + [SubscribeCall];
    }

    method CallSubscribeAction() returns (u: Unsubscriber)
      modifies this`calls
      ensures calls == old(calls) + [SubscribeActionCall]
      ensures u == Unsubscriber(this, |old(calls)|)
    {
      u := Unsubscriber(this, |calls|);
      calls := calls + [SubscribeActionCall];
    }

    method CallUnsubscribe(handle: nat)
      modifies this`calls
      ensures calls == old(calls) + [UnsubscribeCall(handle)]
    {
      calls := calls + [UnsubscribeCall(handle)];
    }
  }

  /** The unsubscribe call that invoking `u` makes on `s`, if `u` belongs to `s`. */
  function UnsubscribeCallsOn(u: Option<Unsubscriber>, s: Store): seq<Call> {
    if u.Some? && u.value.issuer == s then [UnsubscribeCall(u.value.handle)] else []
  }

  /** The store a recorded host dispatch acts on, whatever it is called on; none for anything else. */
  function Homes(m: Option<Member>): set<Store> {
    if m.Some? && m.value.Native? then {m.value.home} else {}
  }

  /** The store an unsubscriber would call into, if there is one. */
  function Issuers(u: Option<Unsubscriber>): set<Store> {
    if u.Some? then {u.value.issuer} else {}
  }
}

/**
 * The event hub each adapter creates. Its implementation is not part of this
 * model: it is known only by the number of handlers registered on it and
 * whether it has been destroyed.
 */
module Interception {

  class Interceptor {
    const name: string
    var handlerCount: nat
    var destroyed: bool

    constructor (name: string)
      ensures this.name == name && handlerCount == 0 && !destroyed
    {
      this.name := name;
      handlerCount := 0;
      destroyed := false;
    }

    method AddHandler()
      modifies this`handlerCount
      ensures handlerCount == old(handlerCount) + 1
    {
      handlerCount := handlerCount + 1;
    }

    method Destroy()
      modifies this`destroyed
      ensures destroyed
    {
      destroyed := true;
    }
  }
}
