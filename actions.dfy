/**
 * `OnboardingAction` and the tap handlers a button runs. A handler is one of
 * the closures the widget registers with `addAction(_:for: .touchUpInside)`;
 * each reads, at tap time, the action of the object that registered it.
 */
module Actions {
  import opened Wrappers

  /** The caller-owned closure of an action; the widget never looks inside it. */
  datatype HandlerRef = HandlerRef(id: nat)

  /** `OnboardingAction`: a title and a handler. */
  datatype OnboardingAction = OnboardingAction(title: string, handler: HandlerRef)

  /** `action?.title` */
  function TitleOf(a: Option<OnboardingAction>): (t: Option<string>)
    ensures t.Some? <==> a.Some?
    ensures a.Some? ==> t.value == a.value.title
  {
    if a.Some? then Some(a.value.title) else None
  }

  datatype Handler =
    /** `{ guard let a = self?.action ... a.handler(a) }` registered by a `FooterView` on its own button */
    | ForwardOwnAction
    /** the same closure registered by the onboarding view that hosts the button */
    | ForwardHostAction
    /** `{ self?.onCommit() }` */
    | CallOnCommit

  /** What a tap makes happen outside the widget. */
  datatype Event = ActionHandlerCalled(action: OnboardingAction) | CommitCalled

  /** The calls one handler makes, given the button owner's and the host's current action. */
  function Fire(h: Handler, own: Option<OnboardingAction>, host: Option<OnboardingAction>): seq<Event> {
    match h
    case ForwardOwnAction => if own.Some? then [ActionHandlerCalled(own.value)] else []
    case ForwardHostAction => if host.Some? then [ActionHandlerCalled(host.value)] else []
    case CallOnCommit => [CommitCalled]
  }

  /** The calls a tap makes: every registered handler in registration order. */
  function TapEvents(handlers: seq<Handler>, own: Option<OnboardingAction>, host: Option<OnboardingAction>): seq<Event>
    decreases |handlers|
  {
    if handlers == [] then []
    else TapEvents(handlers[..|handlers| - 1], own, host) + Fire(handlers[|handlers| - 1], own, host)
  }

  /** A tap while the action the handlers read is nil invokes nothing. */
  lemma {:induction false} TapWithoutActionCallsNothing(handlers: seq<Handler>, own: Option<OnboardingAction>, host: Option<OnboardingAction>)
    requires forall i :: 0 <= i < |handlers| ==> handlers[i] != CallOnCommit
    requires forall i :: 0 <= i < |handlers| ==> handlers[i] == ForwardOwnAction ==> own.None?
    requires forall i :: 0 <= i < |handlers| ==> handlers[i] == ForwardHostAction ==> host.None?
    ensures TapEvents(handlers, own, host) == []
    decreases |handlers|
  {
    if handlers != [] {
      TapWithoutActionCallsNothing(handlers[..|handlers| - 1], own, host);
    }
  }

  /**
   * When every handler forwards the same action `a`, a tap calls `a`'s handler
   * with `a` once per registered handler, and nothing else.
   */
  lemma {:induction false} TapCallsActionOncePerHandler(handlers: seq<Handler>, own: Option<OnboardingAction>,
                                                        host: Option<OnboardingAction>, a: OnboardingAction)
    requires forall i :: 0 <= i < |handlers| ==>
      (handlers[i] == ForwardOwnAction && own == Some(a)) || (handlers[i] == ForwardHostAction && host == Some(a))
    ensures |TapEvents(handlers, own, host)| == |handlers|
    ensures forall k :: 0 <= k < |handlers| ==> TapEvents(handlers, own, host)[k] == ActionHandlerCalled(a)
    decreases |handlers|
  {
    if handlers != [] {
      TapCallsActionOncePerHandler(handlers[..|handlers| - 1], own, host, a);
    }
  }
}
