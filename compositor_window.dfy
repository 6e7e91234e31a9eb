/**
 * CompositorWindow: the compositor's record of one client surface, updated
 * in place by the surface's property notifications, the readiness timer and
 * the compositor's own setters.  Each method is proved to follow the function
 * of the same name in WindowSpec; the ghost log `emitted` records every
 * signal emitted and every removal event posted, and `destroyed` stands for
 * `delete this`.
 */
module Compositor {
  import opened Qt
  import WindowSpec

  /** The type of a QEvent delivered to CompositorWindow::event. */
  datatype EventType = User | OtherEvent

  class CompositorWindow<V(==)> {
    const platform: Platform<V>
    const id: u32
    var parentWinId: u32
    var parentWinIdSet: bool
    var windowType: u32
    var appId: string
    var appIcon: string
    var keepAlive: bool
    var loadingAnimationDisabled: bool
    var ready: bool
    var closed: bool
    var removePosted: bool
    var userData: V

    ghost var emitted: seq<WindowSpec.Effect>
    ghost var destroyed: bool

    /** The member fields as a value. */
    function State(): WindowSpec.Window<V>
      reads this
    {
      WindowSpec.Window(id, parentWinId, parentWinIdSet, windowType, appId, appIcon,
                        keepAlive, loadingAnimationDisabled, ready, closed, removePosted, userData)
    }

    /** A live window whose log agrees with its flags (checkStatus may still be due). */
    ghost predicate Alive()
      reads this
    {
      !destroyed && WindowSpec.Consistent(State(), emitted)
    }

    /** A live window between two calls: its readiness is settled. */
    ghost predicate Valid()
      reads this
    {
      Alive() && WindowSpec.Settled(State())
    }

    /** Defaults, then every entry of the surface's property snapshot, in iteration order. */
    constructor (winId: u32, p: Platform<V>, properties: seq<(string, V)>)
      ensures Valid() && platform == p
      ensures State() == WindowSpec.Create(p, winId, properties).window
      ensures emitted == WindowSpec.Create(p, winId, properties).effects
    {
      platform := p;
      id := winId;
      parentWinId := 0;
      parentWinIdSet := false;
      windowType := p.card;
      appId := "";
      appIcon := "";
      keepAlive := false;
      loadingAnimationDisabled := false;
      ready := false;
      closed := false;
      removePosted := false;
      userData := p.invalid;
      emitted := [];
      destroyed := false;
      new;
      IngestSnapshot(properties);
    }

    /** The constructor's loop: every entry of the snapshot as if it had just changed. */
    method IngestSnapshot(properties: seq<(string, V)>)
      requires Valid()
      modifies this
      ensures Valid()
      ensures State() == WindowSpec.Run(platform, old(State()), WindowSpec.PropertyInputs(properties)).window
      ensures emitted == old(emitted) + WindowSpec.Run(platform, old(State()), WindowSpec.PropertyInputs(properties)).effects
    {
      ghost var start := State();
      var i := 0;
      while i < |properties|
        invariant 0 <= i <= |properties|
        invariant Valid()
        invariant State() == WindowSpec.Run(platform, start, WindowSpec.PropertyInputs(properties[..i])).window
        invariant emitted == old(emitted) + WindowSpec.Run(platform, start, WindowSpec.PropertyInputs(properties[..i])).effects
      {
        ghost var done := WindowSpec.Run(platform, start, WindowSpec.PropertyInputs(properties[..i]));
        ghost var step := WindowSpec.OnWindowPropertyChanged(platform, done.window, properties[i].0, properties[i].1);
        OnWindowPropertyChanged(properties[i].0, properties[i].1);
        WindowSpec.RunPropertiesSnoc(platform, start, properties, i);
        WindowSpec.AppendAssociates(old(emitted), done.effects, step.effects);
        i := i + 1;
      }
      assert properties[..i] == properties;
    }

    /** checkStatus */
    method CheckStatus()
      requires Alive() && (ready ==> parentWinIdSet)
      modifies this
      ensures Valid()
      ensures State() == WindowSpec.CheckStatus(old(State())).window
      ensures emitted == old(emitted) + WindowSpec.CheckStatus(old(State())).effects
    {
      if ready {
        return;
      }
      if |appId| > 0 && parentWinIdSet {
        ready := true;
        emitted := emitted + [WindowSpec.ReadyChanged];
      }
    }

    /** onReadyTimeout: the 2000 ms timer armed by the constructor has expired. */
    method OnReadyTimeout()
      requires Valid()
      modifies this
      ensures Valid()
      ensures State() == WindowSpec.OnReadyTimeout(old(State())).window
      ensures emitted == old(emitted) + WindowSpec.OnReadyTimeout(old(State())).effects
    {
      if ready {
        return;
      }
      ready := true;
      parentWinIdSet := true;
      emitted := emitted + [WindowSpec.ReadyChanged];
    }

    /** onWindowPropertyChanged */
    method OnWindowPropertyChanged(name: string, value: V)
      requires Valid()
      modifies this
      ensures Valid()
      ensures State() == WindowSpec.OnWindowPropertyChanged(platform, old(State()), name, value).window
      ensures emitted == old(emitted) + WindowSpec.OnWindowPropertyChanged(platform, old(State()), name, value).effects
    {
      ghost var a := WindowSpec.Store(platform, State(), WindowSpec.KeyOf(name), value);
      StoreProperty(WindowSpec.KeyOf(name), value);
      WindowSpec.StoreKeepsConsistent(platform, old(State()), old(emitted), WindowSpec.KeyOf(name), value);
      CheckStatus();
      ghost var c := WindowSpec.CheckStatus(a.window);
      WindowSpec.AppendAssociates(old(emitted), a.effects, c.effects);
    }

    /** The if-chain of onWindowPropertyChanged, once the name is looked up. */
    method StoreProperty(key: WindowSpec.Option<WindowSpec.Key>, value: V)
      modifies this
      ensures destroyed == old(destroyed)
      ensures State() == WindowSpec.Store(platform, old(State()), key, value).window
      ensures emitted == old(emitted) + WindowSpec.Store(platform, old(State()), key, value).effects
    {
      match key {
        case None =>
        case Some(AppIdKey) =>
          appId := platform.asString(value);
        case Some(AppIconKey) =>
          appIcon := platform.asString(value);
        case Some(KeepAliveKey) =>
          keepAlive := platform.asBool(value);
        case Some(WindowTypeKey) =>
          windowType := platform.windowTypeOf(platform.asString(value));
        case Some(ParentIdKey) =>
          parentWinId := ToUnsigned(platform.asInt(value));
          parentWinIdSet := true;
          emitted := emitted + [WindowSpec.ParentWinIdChanged];
        case Some(LoadingAnimationDisabledKey) =>
          loadingAnimationDisabled := platform.asBool(value);
          emitted := emitted + [WindowSpec.LoadingAnimationDisabledChanged];
      }
    }

    /** setUserData */
    method SetUserData(data: V)
      requires Valid()
      modifies this
      ensures Valid()
      ensures State() == WindowSpec.SetUserData(old(State()), data).window
      ensures emitted == old(emitted) + WindowSpec.SetUserData(old(State()), data).effects
    {
      if userData == data {
        return;
      }
      userData := data;
      emitted := emitted + [WindowSpec.UserDataChanged];
    }

    /** setClosed */
    method SetClosed(flag: bool)
      requires Valid()
      modifies this
      ensures Valid()
      ensures State() == WindowSpec.SetClosed(old(State()), flag).window
      ensures emitted == old(emitted)
    {
      closed := flag;
    }

    /** tryRemove: `postEvent(this, new QEvent(QEvent::User))` is the RemovalPosted entry of the log. */
    method TryRemove()
      requires Valid()
      modifies this
      ensures Valid()
      ensures State() == WindowSpec.TryRemove(old(State())).window
      ensures emitted == old(emitted) + WindowSpec.TryRemove(old(State())).effects
    {
      if closed && !removePosted {
        removePosted := true;
        emitted := emitted + [WindowSpec.RemovalPosted];
      }
    }

    /**
     * event: the event loop dispatches an event to the window.  The base
     * class handles it first (its answer is `baseHandled`); a User event then
     * clears the guard and deletes the window.
     */
    method Event(kind: EventType, baseHandled: bool) returns (handled: bool)
      requires Valid()
      modifies this
      ensures handled == baseHandled
      ensures emitted == old(emitted)
      ensures kind == User ==> destroyed && State() == old(State()).(removePosted := false)
      ensures kind == User ==> WindowSpec.Count(emitted, WindowSpec.RemovalPosted) == (if old(removePosted) then 1 else 0)
      ensures kind == OtherEvent ==> Valid() && State() == old(State())
    {
      handled := baseHandled;
      if kind == User {
        removePosted := false;
        destroyed := true;
      }
    }

    /** setParentWinId: the surface write-back is not part of this model. */
    method SetParentWinId(parent: u32)
      requires Valid()
      modifies this
      ensures Valid()
      ensures State() == WindowSpec.SetParentWinId(old(State()), parent).window
      ensures emitted == old(emitted) + WindowSpec.SetParentWinId(old(State()), parent).effects
    {
      parentWinId := parent;
      emitted := emitted + [WindowSpec.ParentWinIdChanged];
    }

    // Accessors

    function WinId(): u32 reads this { id }
    function ParentWinId(): u32 reads this { parentWinId }
    function WindowType(): u32 reads this { windowType }
    function AppId(): string reads this { appId }
    function AppIcon(): string reads this { appIcon }
    function Ready(): bool reads this { ready }
    function UserData(): V reads this { userData }
    function KeepAlive(): bool reads this { keepAlive }
    function LoadingAnimationDisabled(): bool reads this { loadingAnimationDisabled }
  }
}
