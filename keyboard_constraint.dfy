/**
 * The keyboard constraint of `UIViewController`: a process-wide table says, per identifier,
 * whether the on-screen keyboard is up, and the "will show" / "will hide" handlers move a view
 * controller's extra bottom safe-area inset with the keyboard, ignoring repeated events.
 *
 * The handlers are first stated as pure transitions (`WillShow`, `WillHide`) over the part of
 * the state they touch, a `Screen`; the classes `KeyboardStates` and `ViewController` then hold
 * that state in fields and their methods are proved to perform exactly those transitions.
 */
module KeyboardConstraint {
  import opened Optional

  // ---------------------------------------------------------------------------
  // Notifications and animations

  /**
   * The `userInfo` entries the handlers read: the height of the keyboard's end frame, the
   * animation duration and the animation curve. An entry that is missing, or that holds a value
   * of another type, is `None`.
   */
  datatype UserInfo = UserInfo(endFrameHeight: Option<real>, duration: Option<real>, curve: Option<nat>)

  datatype Notification = Notification(userInfo: Option<UserInfo>)

  /** The arguments of the `UIView.animate` call a handler schedules; `options` is the raw value of the animation options. */
  datatype Animation = Animation(duration: real, options: nat)

  /** The raw value of the empty option set `[]`. */
  const NoOptions: nat := 0

  /** Duration of the hide animation when the event carries none. */
  const FallbackHideDuration: real := 0.6

  /** `notification?.userInfo` for the optional notification of the hide handler. */
  function UserInfoOf(n: Option<Notification>): Option<UserInfo> {
    if n.Some? then n.value.userInfo else None
  }

  /** The show handler gets past all its payload guards: frame, duration and curve are all present. */
  predicate HasShowPayload(n: Notification) {
    && n.userInfo.Some?
    && n.userInfo.value.endFrameHeight.Some?
    && n.userInfo.value.duration.Some?
    && n.userInfo.value.curve.Some?
  }

  // ---------------------------------------------------------------------------
  // The handlers as transitions

  /** What one view controller's handlers read and write: the shared visibility table and its own extra bottom inset. */
  datatype Screen = Screen(visible: map<string, bool>, inset: real)

  /** The state after a handler ran, and the animation it scheduled, if any. */
  datatype Reaction = Reaction(screen: Screen, animation: Option<Animation>)

  /** `KeyboardStates.visible[identifier] ?? false`: an absent entry means hidden. */
  predicate IsVisible(visible: map<string, bool>, identifier: string) {
    identifier in visible && visible[identifier]
  }

  /**
   * `keyboardWillShow(notification:identifier:)`. The flag is written before the duplicate
   * check, so it is set even when nothing else happens; only a show from hidden with a complete
   * payload moves the inset, to the keyboard height less the view's bottom safe-area inset
   * (not clamped: it may be negative).
   */
  function WillShow(s: Screen, n: Notification, identifier: string, safeAreaBottom: real): (r: Reaction)
    ensures r.screen.visible == s.visible[identifier := true]
    ensures IsVisible(s.visible, identifier) || !HasShowPayload(n) ==>
              r.screen.inset == s.inset && r.animation == None
    ensures !IsVisible(s.visible, identifier) && HasShowPayload(n) ==>
              var info := n.userInfo.value;
              && r.screen.inset == info.endFrameHeight.value - safeAreaBottom
              && r.animation == Some(Animation(info.duration.value, info.curve.value))
  {
    var currentlyVisible := IsVisible(s.visible, identifier);
    var visible := s.visible[identifier := true];
    var noEffect := Reaction(Screen(visible, s.inset), None);
    if currentlyVisible then noEffect
    else
      match n.userInfo
      case None => noEffect
      case Some(info) =>
        match info.endFrameHeight
        case None => noEffect
        case Some(height) =>
          match info.duration
          case None => noEffect
          case Some(duration) =>
            match info.curve
            case None => noEffect
            case Some(curve) =>
              Reaction(Screen(visible, height - safeAreaBottom), Some(Animation(duration, curve)))
  }

  /** The animation of the hide handler: the event's duration, else 0.6; the event's curve, else no options. */
  function HideAnimation(n: Option<Notification>): (a: Animation)
    ensures UserInfoOf(n).Some? && UserInfoOf(n).value.duration.Some? ==>
              a.duration == UserInfoOf(n).value.duration.value
    ensures UserInfoOf(n).None? || UserInfoOf(n).value.duration.None? ==>
              a.duration == FallbackHideDuration
    ensures UserInfoOf(n).Some? && UserInfoOf(n).value.curve.Some? ==>
              a.options == UserInfoOf(n).value.curve.value
    ensures UserInfoOf(n).None? || UserInfoOf(n).value.curve.None? ==>
              a.options == NoOptions
  {
    match UserInfoOf(n)
    case None => Animation(FallbackHideDuration, NoOptions)
    case Some(info) => Animation(info.duration.GetOr(FallbackHideDuration), info.curve.GetOr(NoOptions))
  }

  /**
   * `keyboardWillHide(notification:identifier:)`. The flag is cleared before the duplicate
   * check; only a hide from visible resets the inset to zero and animates.
   */
  function WillHide(s: Screen, n: Option<Notification>, identifier: string): (r: Reaction)
    ensures r.screen.visible == s.visible[identifier := false]
    ensures !IsVisible(s.visible, identifier) ==> r.screen.inset == s.inset && r.animation == None
    ensures IsVisible(s.visible, identifier) ==> r.screen.inset == 0.0 && r.animation == Some(HideAnimation(n))
  {
    var currentlyVisible := IsVisible(s.visible, identifier);
    var visible := s.visible[identifier := false];
    if !currentlyVisible then Reaction(Screen(visible, s.inset), None)
    else Reaction(Screen(visible, 0.0), Some(HideAnimation(n)))
  }

  // ---------------------------------------------------------------------------
  // Runs of events for one identifier

  /**
   * An event delivered to the handlers of a view controller attached for one identifier: a show
   * (with the view's safe-area inset at that moment) or a hide (with no notification for the
   * synthetic hide of a detach).
   */
  datatype Event =
    | ShowEvent(notification: Notification, safeAreaBottom: real)
    | HideEvent(optionalNotification: Option<Notification>)

  function Handle(s: Screen, e: Event, identifier: string): Reaction {
    match e
    case ShowEvent(n, safeAreaBottom) => WillShow(s, n, identifier, safeAreaBottom)
    case HideEvent(n) => WillHide(s, n, identifier)
  }

  /** The state after the handlers have run on each event of `es`, in order. */
  function Run(s: Screen, es: seq<Event>, identifier: string): Screen
    decreases |es|
  {
    if es == [] then s else Handle(Run(s, es[..|es| - 1], identifier), es[|es| - 1], identifier).screen
  }

  /** Whenever the keyboard is not up for `identifier`, no extra inset is applied. */
  predicate InsetFollowsKeyboard(s: Screen, identifier: string) {
    !IsVisible(s.visible, identifier) ==> s.inset == 0.0
  }

  /**
   * Any run of events keeps the inset at zero while the keyboard is hidden. The run is every
   * event that touches `identifier`'s entry, so this holds when no other view controller
   * handles the same identifier (see `SharedIdentifierLeavesInset`).
   */
  lemma {:induction false} RunKeepsInsetFollowingKeyboard(s: Screen, es: seq<Event>, identifier: string)
    requires InsetFollowsKeyboard(s, identifier)
    ensures InsetFollowsKeyboard(Run(s, es, identifier), identifier)
    decreases |es|
  {
    if es != [] {
      RunKeepsInsetFollowingKeyboard(s, es[..|es| - 1], identifier);
    }
  }

  /** A run for one identifier leaves the other identifiers' entries of the table as they were. */
  lemma {:induction false} RunKeepsOtherIdentifiers(s: Screen, es: seq<Event>, identifier: string)
    ensures Run(s, es, identifier).visible - {identifier} == s.visible - {identifier}
    ensures identifier in Run(s, es, identifier).visible <==> es != [] || identifier in s.visible
    decreases |es|
  {
    if es != [] {
      var before := Run(s, es[..|es| - 1], identifier);
      RunKeepsOtherIdentifiers(s, es[..|es| - 1], identifier);
      var after := Handle(before, es[|es| - 1], identifier).screen;
      assert after.visible - {identifier} == before.visible - {identifier};
    }
  }

  /** After a run, the keyboard counts as up exactly when the last event was a show. */
  lemma RunVisibility(s: Screen, es: seq<Event>, identifier: string)
    requires es != []
    ensures IsVisible(Run(s, es, identifier).visible, identifier) <==> es[|es| - 1].ShowEvent?
  {
  }

  /** Of consecutive shows, every one after the first is a duplicate: it animates nothing and moves no inset. */
  lemma RepeatedShowsAnimateOnce(s: Screen, es: seq<Event>, identifier: string, k: nat)
    requires forall i :: 0 <= i < |es| ==> es[i].ShowEvent?
    requires 1 <= k < |es|
    ensures Handle(Run(s, es[..k], identifier), es[k], identifier).animation == None
    ensures Handle(Run(s, es[..k], identifier), es[k], identifier).screen.inset == Run(s, es[..k], identifier).inset
  {
    RunVisibility(s, es[..k], identifier);
  }

  /**
   * Detaching a view controller that started without extra inset resets its inset to zero and
   * marks the keyboard hidden, whatever events came before, provided it is the only view
   * controller handling `identifier` (see `SharedIdentifierLeavesInset` for two that share one).
   */
  lemma DetachAfterAnyRun(visible: map<string, bool>, es: seq<Event>, identifier: string)
    ensures var r := WillHide(Run(Screen(visible, 0.0), es, identifier), None, identifier);
            r.screen.inset == 0.0 && !IsVisible(r.screen.visible, identifier)
  {
    RunKeepsInsetFollowingKeyboard(Screen(visible, 0.0), es, identifier);
  }

  // ---------------------------------------------------------------------------
  // The state in place

  /** `UIViewController.KeyboardStates`: the process-wide table of keyboard visibility per identifier. */
  class KeyboardStates {
    var visible: map<string, bool>

    constructor ()
      ensures visible == map[]
    {
      visible := map[];
    }
  }

  datatype KeyboardNotificationName = KeyboardWillShowNotification | KeyboardWillHideNotification

  /** A listener registered with the notification helper: its name, the distinct name it is registered under, and the identifier its handler updates. */
  datatype Subscription = Subscription(name: KeyboardNotificationName, distinctBy: string, identifier: string)

  class ViewController {
    /** `id(self)`. */
    const ident: string
    /** `view.safeAreaInsets.bottom`, maintained by UIKit. */
    var safeAreaBottom: real
    /** `additionalSafeAreaInsets.bottom`. */
    var additionalBottom: real

    constructor (ident: string, safeAreaBottom: real)
      ensures this.ident == ident && this.safeAreaBottom == safeAreaBottom && additionalBottom == 0.0
    {
      this.ident := ident;
      this.safeAreaBottom := safeAreaBottom;
      additionalBottom := 0.0;
    }

    /**
     * `attachKeyboardConstraint(sender)`: one show and one hide listener, both registered under
     * `id(self)`, whose handlers update the entry of `id(sender)`.
     */
    method AttachKeyboardConstraint(sender: ViewController) returns (subscriptions: seq<Subscription>)
      ensures |subscriptions| == 2
      ensures subscriptions[0].name == KeyboardWillShowNotification
      ensures subscriptions[1].name == KeyboardWillHideNotification
      ensures forall sub <- subscriptions :: sub.distinctBy == ident && sub.identifier == sender.ident
    {
      var identifier := sender.ident;
      var onShow := Subscription(KeyboardWillShowNotification, ident, identifier);
      var onHide := Subscription(KeyboardWillHideNotification, ident, identifier);
      subscriptions := [onShow, onHide];
    }

    /** A posted keyboard notification reaching one of this view controller's listeners (registered under its own identity). */
    method Deliver(states: KeyboardStates, sub: Subscription, n: Notification) returns (animation: Option<Animation>)
      requires sub.distinctBy == ident
      modifies this`additionalBottom, states
      ensures var e := if sub.name == KeyboardWillShowNotification then ShowEvent(n, safeAreaBottom) else HideEvent(Some(n));
              var r := Handle(old(Screen(states.visible, additionalBottom)), e, sub.identifier);
              Screen(states.visible, additionalBottom) == r.screen && animation == r.animation
    {
      if sub.name == KeyboardWillShowNotification {
        animation := KeyboardWillShow(states, n, sub.identifier);
      } else {
        animation := KeyboardWillHide(states, Some(n), sub.identifier);
      }
    }

    /** `detachKeyboardConstraint(sender)`: the listeners are dropped (not modelled), then a hide without notification is run for `id(sender)`. */
    method DetachKeyboardConstraint(states: KeyboardStates, sender: ViewController) returns (animation: Option<Animation>)
      modifies this`additionalBottom, states
      ensures var r := WillHide(old(Screen(states.visible, additionalBottom)), None, sender.ident);
              Screen(states.visible, additionalBottom) == r.screen && animation == r.animation
      ensures !IsVisible(states.visible, sender.ident)
      ensures old(IsVisible(states.visible, sender.ident)) ==>
                additionalBottom == 0.0 && animation == Some(Animation(FallbackHideDuration, NoOptions))
    {
      animation := KeyboardWillHide(states, None, sender.ident);
    }

    method KeyboardWillShow(states: KeyboardStates, n: Notification, identifier: string) returns (animation: Option<Animation>)
      modifies this`additionalBottom, states
      ensures var r := WillShow(old(Screen(states.visible, additionalBottom)), n, identifier, safeAreaBottom);
              Screen(states.visible, additionalBottom) == r.screen && animation == r.animation
    {
      var currentlyVisible := identifier in states.visible && states.visible[identifier];
      states.visible := states.visible[identifier := true];
      if currentlyVisible {
        return None;
      }
      if n.userInfo.None? {
        return None;
      }
      var info := n.userInfo.value;
      if info.endFrameHeight.None? {
        return None;
      }
      var height := info.endFrameHeight.value;
      if info.duration.None? {
        return None;
      }
      var keyboardDuration := info.duration.value;
      if info.curve.None? {
        return None;
      }
      var keyboardAnimationCurve := info.curve.value;
      height := height - safeAreaBottom;
      additionalBottom := height;
      animation := Some(Animation(keyboardDuration, keyboardAnimationCurve));
    }

    method KeyboardWillHide(states: KeyboardStates, n: Option<Notification>, identifier: string) returns (animation: Option<Animation>)
      modifies this`additionalBottom, states
      ensures var r := WillHide(old(Screen(states.visible, additionalBottom)), n, identifier);
              Screen(states.visible, additionalBottom) == r.screen && animation == r.animation
    {
      var currentlyVisible := identifier in states.visible && states.visible[identifier];
      states.visible := states.visible[identifier := false];
      if !currentlyVisible {
        return None;
      }
      var keyboardDuration := FallbackHideDuration;
      var options := NoOptions;
      var info := UserInfoOf(n);
      if info.Some? && info.value.duration.Some? {
        keyboardDuration := info.value.duration.value;
      }
      if info.Some? && info.value.curve.Some? {
        options := info.value.curve.value;
      }
      additionalBottom := 0.0;
      animation := Some(Animation(keyboardDuration, options));
    }
  }

  /**
   * The visibility table is keyed by `id(sender)` only, so two view controllers attached with the
   * same sender share one entry. Here A and B both attach for S; a show reaches A (which moves
   * its inset to 300) and then B (which finds S visible and returns early). B detaches, clearing
   * S; then A detaches, finds S already hidden and returns early, so A keeps its 300-point inset.
   */
  method SharedIdentifierLeavesInset() returns (insetA: real, visibleAfter: bool)
    ensures insetA == 300.0 && !visibleAfter
  {
    var states := new KeyboardStates();
    var s := new ViewController("S", 0.0);
    var a := new ViewController("A", 0.0);
    var b := new ViewController("B", 0.0);
    var subsA := a.AttachKeyboardConstraint(s);
    var subsB := b.AttachKeyboardConstraint(s);
    var show := Notification(Some(UserInfo(Some(300.0), Some(0.25), Some(7))));
    var _ := a.Deliver(states, subsA[0], show);
    var _ := b.Deliver(states, subsB[0], show);
    var _ := b.DetachKeyboardConstraint(states, s);
    var _ := a.DetachKeyboardConstraint(states, s);
    insetA := a.additionalBottom;
    visibleAfter := IsVisible(states.visible, s.ident);
  }
}
