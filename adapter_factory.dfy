/**
 * The adapter factory: creation by framework type, and automatic selection
 * either by asking each adapter whether it supports a given target, in a
 * fixed order, or by reading the page-global markers.
 */
module AdapterFactory {
  import opened Values
  import opened FrameworkDetector
  import Host
  import ReduxAdapters
  import VuexAdapters

  /** The adapters that exist. */
  datatype AdapterKind = ReduxKind | VuexKind {
    /** The `type` field of an adapter of this kind. */
    function Type(): FrameworkType {
      match this
      case ReduxKind => Redux
      case VuexKind => Vuex
    }
  }

  datatype FactoryError = UnsupportedFramework(requested: FrameworkType)

  datatype Result<+T, +E> = Success(value: T) | Failure(error: E)

  /** createAdapter(type): an adapter for REDUX and VUEX, an error naming the type otherwise. */
  function CreateAdapter(t: FrameworkType): (r: Result<AdapterKind, FactoryError>)
    ensures r.Success? <==> t == Redux || t == Vuex
    ensures r.Success? ==> r.value.Type() == t
    ensures r.Failure? ==> r.error == UnsupportedFramework(t)
  {
    match t
    case Redux => Success(ReduxKind)
    case Vuex => Success(VuexKind)
    case _ => Failure(UnsupportedFramework(t))
  }

  /** A freshly constructed adapter of either kind. */
  datatype Adapter = ReduxInstance(redux: ReduxAdapters.ReduxAdapter) | VuexInstance(vuex: VuexAdapters.VuexAdapter)

  /** `new ReduxAdapter()` / `new VuexAdapter()`: an adapter of the requested kind with every field cleared. */
  method NewAdapter(kind: AdapterKind) returns (a: Adapter)
    ensures kind == ReduxKind ==>
              a.ReduxInstance? && fresh(a.redux) && a.redux.Valid() && a.redux.store == null
              && a.redux.kind == kind.Type()
    ensures kind == VuexKind ==>
              a.VuexInstance? && fresh(a.vuex) && a.vuex.Valid() && a.vuex.store == null
              && a.vuex.kind == kind.Type()
  {
    match kind
    case ReduxKind =>
      var r := new ReduxAdapters.ReduxAdapter();
      a := ReduxInstance(r);
    case VuexKind =>
      var v := new VuexAdapters.VuexAdapter();
      a := VuexInstance(v);
  }

  /** The order in which autoDetectAdapter asks the adapters about a target. */
  const Priority: seq<AdapterKind> := [ReduxKind, VuexKind]

  /** The isSupported check of an adapter of the given kind. */
  predicate Supports(kind: AdapterKind, target: Host.Shape) {
    match kind
    case ReduxKind => ReduxAdapters.ReduxAdapter.IsSupported(target)
    case VuexKind => VuexAdapters.VuexAdapter.IsSupported(target)
  }

  /** The first kind in `kinds` that supports `target`. */
  function FirstSupported(kinds: seq<AdapterKind>, target: Host.Shape): (r: Option<AdapterKind>)
    ensures r.Some? ==> r.value in kinds && Supports(r.value, target)
  {
    if |kinds| == 0 then None
    else if Supports(kinds[0], target) then Some(kinds[0])
    else FirstSupported(kinds[1..], target)
  }

  /** FirstSupported picks a supporting kind preceded only by non-supporting ones, and finds none only if none supports. */
  lemma {:induction false} FirstSupportedIsFirst(kinds: seq<AdapterKind>, target: Host.Shape)
    ensures FirstSupported(kinds, target).None? <==> forall k :: k in kinds ==> !Supports(k, target)
    ensures FirstSupported(kinds, target).Some? ==>
              exists i :: 0 <= i < |kinds| && kinds[i] == FirstSupported(kinds, target).value
                          && forall j :: 0 <= j < i ==> !Supports(kinds[j], target)
  {
    if |kinds| > 0 && !Supports(kinds[0], target) {
      FirstSupportedIsFirst(kinds[1..], target);
      var r := FirstSupported(kinds, target);
      if r.Some? {
        var i :| 0 <= i < |kinds[1..]| && kinds[1..][i] == r.value
                 && forall j :: 0 <= j < i ==> !Supports(kinds[1..][j], target);
        assert kinds[i + 1] == r.value;
        assert forall j :: 0 <= j < i + 1 ==> !Supports(kinds[j], target) by {
          forall j | 0 <= j < i + 1 ensures !Supports(kinds[j], target) {
            if j > 0 {
              assert kinds[j] == kinds[1..][j - 1];
            }
          }
        }
      } else {
        assert forall k :: k in kinds ==> k == kinds[0] || k in kinds[1..];
      }
    } else if |kinds| > 0 {
      assert kinds[0] == FirstSupported(kinds, target).value;
    }
  }

  /**
   * What autoDetectAdapter selects. A truthy target is decided by the adapters'
   * support checks alone; otherwise, in a page, Redux markers select Redux,
   * Vue markers select Vuex unless Pinia is present, and nothing else selects anything.
   */
  function SelectAdapter(target: Host.Shape, env: Env): (r: Option<AdapterKind>)
    ensures target.truthy && r.Some? ==> Supports(r.value, target)
    ensures !target.truthy && r.Some? ==> env.hasWindow && r.value.Type() == DetectFramework(env)
    ensures !target.truthy && !env.hasWindow ==> r.None?
  {
    if target.truthy then FirstSupported(Priority, target)
    else if !env.hasWindow then None
    else if env.ReduxMarker() then Some(ReduxKind)
    else if env.VueMarker() then (if env.PiniaMarker() then None else Some(VuexKind))
    else None
  }

  /** autoDetectAdapter(target): the loop over the adapters in priority order, then the global markers. */
  method AutoDetectAdapter(target: Host.Shape, env: Env) returns (r: Option<AdapterKind>)
    ensures r == SelectAdapter(target, env)
  {
    if target.truthy {
      var i := 0;
      while i < |Priority|
        invariant 0 <= i <= |Priority|
        invariant FirstSupported(Priority[i..], target) == FirstSupported(Priority, target)
      {
        if Supports(Priority[i], target) {
          return Some(Priority[i]);
        }
        assert Priority[i..][1..] == Priority[i + 1..];
        i := i + 1;
      }
      return None;
    }
    if !env.hasWindow {
      return None;
    }
    if env.reduxDevtoolsExtension || env.reduxStore {
      return Some(ReduxKind);
    }
    if env.vueDevtoolsHook && env.vue {
      if env.piniaUpper || env.piniaLower {
        return None;
      }
      return Some(VuexKind);
    }
    return None;
  }

  /** With a target, Redux is asked first: the Vuex adapter is chosen only for a store Redux does not support. */
  lemma TargetSelection(target: Host.Shape, env: Env)
    requires target.truthy
    ensures SelectAdapter(target, env) == Some(ReduxKind) <==> ReduxAdapters.ReduxAdapter.IsSupported(target)
    ensures SelectAdapter(target, env) == Some(VuexKind) <==>
              !ReduxAdapters.ReduxAdapter.IsSupported(target) && VuexAdapters.VuexAdapter.IsSupported(target)
    ensures SelectAdapter(target, env) == None <==>
              !ReduxAdapters.ReduxAdapter.IsSupported(target) && !VuexAdapters.VuexAdapter.IsSupported(target)
  {
    FirstSupportedIsFirst(Priority, target);
  }

  /**
   * Without a target the selection is what createAdapter makes of the detected
   * framework: detection of Pinia, Recoil, Jotai or nothing yields no adapter.
   */
  lemma GlobalSelectionFollowsDetection(target: Host.Shape, env: Env)
    requires !target.truthy
    ensures SelectAdapter(target, env).Some? <==> CreateAdapter(DetectFramework(env)).Success?
    ensures SelectAdapter(target, env).Some? ==>
              SelectAdapter(target, env).value == CreateAdapter(DetectFramework(env)).value
              && SelectAdapter(target, env).value.Type() == DetectFramework(env)
  {
  }

  /** The global markers are consulted only when no truthy target is given. */
  lemma TargetIgnoresMarkers(target: Host.Shape, env: Env, env': Env)
    requires target.truthy
    ensures SelectAdapter(target, env) == SelectAdapter(target, env')
  {
  }
}
