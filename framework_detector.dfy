/**
 * Framework detection from page-global markers. The global scope is an
 * injected environment record: `hasWindow` says whether a `window` object
 * exists at all, and each other field says whether the named global is truthy.
 */
module FrameworkDetector {

  /** EFrameworkType. */
  datatype FrameworkType = Redux | Vuex | Pinia | Recoil | Jotai | Unknown

  datatype Env = Env(
    hasWindow: bool,
    reduxDevtoolsExtension: bool, // __REDUX_DEVTOOLS_EXTENSION__
    reduxStore: bool,             // __REDUX_STORE__
    vueDevtoolsHook: bool,        // __VUE_DEVTOOLS_GLOBAL_HOOK__
    vue: bool,                    // __VUE__
    piniaUpper: bool,             // __PINIA__
    piniaLower: bool,             // __pinia__
    recoilRootSet: bool,          // __RECOIL_ROOT_SET
    jotaiDevtoolsHook: bool       // __JOTAI_DEV_TOOLS_HOOK__
  ) {
    predicate ReduxMarker() { reduxDevtoolsExtension || reduxStore }
    predicate VueMarker() { vueDevtoolsHook && vue }
    predicate PiniaMarker() { piniaUpper || piniaLower }
    predicate NoMarkers() {
      !ReduxMarker() && !vueDevtoolsHook && !vue && !PiniaMarker() && !recoilRootSet && !jotaiDevtoolsHook
    }
  }

  /** detectFramework: the first marker group that is present, in a fixed order. */
  function DetectFramework(env: Env): (f: FrameworkType)
    ensures f != Unknown ==> env.hasWindow
    ensures f == Redux <==> env.hasWindow && env.ReduxMarker()
    ensures f == Vuex || f == Pinia ==> !env.ReduxMarker() && env.VueMarker()
  {
    if !env.hasWindow then Unknown
    else if env.ReduxMarker() then Redux
    else if env.VueMarker() then (if env.PiniaMarker() then Pinia else Vuex)
    else if env.recoilRootSet then Recoil
    else if env.jotaiDevtoolsHook then Jotai
    else Unknown
  }

  /**
   * The decision table of detectFramework, one if-and-only-if per outcome;
   * each outcome needs a window and every marker group checked earlier to be absent.
   */
  lemma DetectionTable(env: Env)
    ensures DetectFramework(env) == Redux <==> env.hasWindow && env.ReduxMarker()
    ensures DetectFramework(env) == Pinia <==> env.hasWindow && !env.ReduxMarker() && env.VueMarker() && env.PiniaMarker()
    ensures DetectFramework(env) == Vuex <==> env.hasWindow && !env.ReduxMarker() && env.VueMarker() && !env.PiniaMarker()
    ensures DetectFramework(env) == Recoil <==> env.hasWindow && !env.ReduxMarker() && !env.VueMarker() && env.recoilRootSet
    ensures DetectFramework(env) == Jotai <==>
              env.hasWindow && !env.ReduxMarker() && !env.VueMarker() && !env.recoilRootSet && env.jotaiDevtoolsHook
    ensures DetectFramework(env) == Unknown <==>
              !env.hasWindow || (!env.ReduxMarker() && !env.VueMarker() && !env.recoilRootSet && !env.jotaiDevtoolsHook)
  {
  }

  lemma NoWindowIsUnknown(env: Env)
    requires !env.hasWindow
    ensures DetectFramework(env) == Unknown
  {
  }

  lemma NoMarkersIsUnknown(env: Env)
    requires env.NoMarkers()
    ensures DetectFramework(env) == Unknown
  {
  }

  /** Redux markers dominate: setting any other marker does not change a Redux verdict. */
  lemma ReduxDominates(env: Env, other: Env)
    requires env.hasWindow && env.ReduxMarker()
    requires other.hasWindow && other.reduxDevtoolsExtension == env.reduxDevtoolsExtension && other.reduxStore == env.reduxStore
    ensures DetectFramework(env) == Redux && DetectFramework(other) == Redux
  {
  }

  /** A Vue devtools hook without `__VUE__` falls through to the Recoil and Jotai tests. */
  lemma VueHookAloneFallsThrough(env: Env)
    requires env.hasWindow && !env.ReduxMarker() && env.vueDevtoolsHook && !env.vue
    ensures DetectFramework(env) != Vuex && DetectFramework(env) != Pinia
    ensures DetectFramework(env) == DetectFramework(env.(vueDevtoolsHook := false, piniaUpper := false, piniaLower := false))
  {
  }
}
