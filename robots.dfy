/** Screen robots: one class per screen, whose methods perform fixed sequences of
    primitive actions on that screen's elements and return the robot itself so that
    calls can be chained. Beside the classes, the effect of each robot call and of a
    chain of calls is given as a function on values. */
module Robots {
  import opened Registry
  import opened Actions

  /** A user name and password, as entered on the login screen. */
  datatype LoginCredentials = LoginCredentials(userName: string, password: string)

  /** The screens that have a robot. */
  datatype Screen = Login | Dashboard

  /** One robot method call, with its argument. */
  datatype RobotCall =
    | EnterCredentials(credentials: LoginCredentials)
    | PressLoginButton
    | PressUserIcon
    | PressSettingsIcon

  /** The screen whose robot offers `call`. */
  function ScreenOf(call: RobotCall): Screen {
    match call
    case EnterCredentials(_) => Login
    case PressLoginButton => Login
    case PressUserIcon => Dashboard
    case PressSettingsIcon => Dashboard
  }

  /** The elements a screen's robot methods act on. The source has no separate notion
      of a screen's layout: these sets are exactly the elements named in the bodies of
      each robot's methods, so they describe what the robots do, not an independent
      screen definition. */
  function ScreenElements(screen: Screen): set<Element> {
    match screen
    case Login => {UserNameTextField, PasswordTextField, LoginButton}
    case Dashboard => {UserIcon, SettingsIcon}
  }

  /** The event agrees with the registry: text goes only into a text field, and
      presses go only to elements that are not text fields. The primitives do not
      check this; it is a property of the robots that call them. */
  predicate KindConsistent(ev: Event) {
    ev.element in OttChildPairingElementList &&
    match ev
    case EnterText(_, e) => OttChildPairingElementList[e].kind == TextField
    case Press(e) => OttChildPairingElementList[e].kind != TextField
  }

  /** The events one robot call reports. */
  function Effect(call: RobotCall): (t: seq<Event>)
    ensures t != []
    ensures forall ev :: ev in t ==> ev.element in ScreenElements(ScreenOf(call))
    ensures forall ev :: ev in t ==> KindConsistent(ev)
    ensures forall ev :: ev in t && ev.EnterText? ==>
      call.EnterCredentials? && ev.text in [call.credentials.userName, call.credentials.password]
  {
    match call
    case EnterCredentials(c) =>
      [EnterText(c.userName, UserNameTextField), EnterText(c.password, PasswordTextField)]
    case PressLoginButton => [Press(LoginButton)]
    case PressUserIcon => [Press(UserIcon)]
    case PressSettingsIcon => [Press(SettingsIcon)]
  }

  /** The events a chain `r.c0().c1()...` reports: each call's events, in call order. */
  function ChainTrace(calls: seq<RobotCall>): (t: seq<Event>)
    ensures |t| >= |calls|
    ensures forall ev :: ev in t ==> KindConsistent(ev)
  {
    if calls == [] then [] else Effect(calls[0]) + ChainTrace(calls[1..])
  }

  /** Chaining is sequencing: the chain `a` followed by the chain `b` reports the
      events of `a` and then those of `b`. */
  lemma {:induction false} ChainTraceAppend(a: seq<RobotCall>, b: seq<RobotCall>)
    ensures ChainTrace(a + b) == ChainTrace(a) + ChainTrace(b)
  {
    if a == [] {
      assert a + b == b;
    } else {
      assert (a + b)[1..] == a[1..] + b;
      ChainTraceAppend(a[1..], b);
    }
  }

  /** A chain of two calls reports the first call's events and then the second's. */
  lemma {:induction false} ChainTracePair(first: RobotCall, second: RobotCall)
    ensures ChainTrace([first, second]) == Effect(first) + Effect(second)
  {
    assert [first, second][1..] == [second];
    assert [second][1..] == [];
    assert ChainTrace([second]) == Effect(second) + ChainTrace([]);
  }

  /** A chain of calls on one screen's robot touches only that screen's elements. */
  lemma {:induction false} ChainStaysOnScreen(calls: seq<RobotCall>, screen: Screen)
    requires forall c :: c in calls ==> ScreenOf(c) == screen
    ensures forall ev :: ev in ChainTrace(calls) ==> ev.element in ScreenElements(screen)
  {
    if calls != [] {
      assert calls[0] in calls;
      forall c | c in calls[1..] ensures ScreenOf(c) == screen {
        assert c in calls;
      }
      ChainStaysOnScreen(calls[1..], screen);
    }
  }

  /** The login screen's robot. */
  class LoginViewRobot {
    const base: BaseTest

    constructor (base: BaseTest)
      ensures this.base == base
    {
      this.base := base;
    }

    /** Types the user name into the user-name field, then the password into the
        password field; returns this robot. */
    method EnterCredentials(credentials: LoginCredentials) returns (r: LoginViewRobot)
      modifies base.console
      ensures r == this
      ensures base.console.events == old(base.console.events)
        + [EnterText(credentials.userName, UserNameTextField),
           EnterText(credentials.password, PasswordTextField)]
      ensures base.console.events == old(base.console.events) + Effect(RobotCall.EnterCredentials(credentials))
    {
      base.EnterTextInToTextField(credentials.userName, UserNameTextField);
      base.EnterTextInToTextField(credentials.password, PasswordTextField);
      r := this;
    }

    /** Presses the login button; returns this robot. */
    method PressLoginButton() returns (r: LoginViewRobot)
      modifies base.console
      ensures r == this
      ensures base.console.events == old(base.console.events) + [Press(LoginButton)]
      ensures base.console.events == old(base.console.events) + Effect(RobotCall.PressLoginButton)
    {
      base.PressElement(LoginButton);
      r := this;
    }
  }

  /** The dashboard screen's robot (the name keeps the source's spelling). */
  class DashbbboardViewRobot {
    const base: BaseTest

    constructor (base: BaseTest)
      ensures this.base == base
    {
      this.base := base;
    }

    /** Presses the user icon (a cell); returns this robot. */
    method PressUserIcon() returns (r: DashbbboardViewRobot)
      modifies base.console
      ensures r == this
      ensures base.console.events == old(base.console.events) + [Press(UserIcon)]
      ensures base.console.events == old(base.console.events) + Effect(RobotCall.PressUserIcon)
    {
      base.PressElement(UserIcon);
      r := this;
    }

    /** Presses the settings icon; returns this robot. */
    method PressSettingsIcon() returns (r: DashbbboardViewRobot)
      modifies base.console
      ensures r == this
      ensures base.console.events == old(base.console.events) + [Press(SettingsIcon)]
      ensures base.console.events == old(base.console.events) + Effect(RobotCall.PressSettingsIcon)
    {
      base.PressElement(SettingsIcon);
      r := this;
    }
  }
}
