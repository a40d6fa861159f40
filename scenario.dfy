/** The test scenario: log in with fixed credentials, then open the user icon and the
    settings icon on the dashboard, each step through its screen's robot. */
module Scenario {
  import opened Registry
  import opened Actions
  import opened Robots

  /** The calls of the first test, as two chains: one on the login robot, one on the
      dashboard robot. */
  function FirstTestTrace(credentials: LoginCredentials): (t: seq<Event>)
    ensures t == [EnterText(credentials.userName, UserNameTextField),
                  EnterText(credentials.password, PasswordTextField),
                  Press(LoginButton),
                  Press(UserIcon),
                  Press(SettingsIcon)]
  {
    ChainTracePair(RobotCall.EnterCredentials(credentials), RobotCall.PressLoginButton);
    ChainTracePair(RobotCall.PressUserIcon, RobotCall.PressSettingsIcon);
    ChainTrace([RobotCall.EnterCredentials(credentials), RobotCall.PressLoginButton])
      + ChainTrace([RobotCall.PressUserIcon, RobotCall.PressSettingsIcon])
  }

  /** The first test types only into text fields, presses only other elements, and
      presses the user icon strictly before the settings icon. */
  lemma FirstTestWellFormed(credentials: LoginCredentials)
    ensures forall ev :: ev in FirstTestTrace(credentials) ==> KindConsistent(ev)
    ensures forall i, j ::
      (0 <= i < |FirstTestTrace(credentials)| && 0 <= j < |FirstTestTrace(credentials)|
       && FirstTestTrace(credentials)[i] == Press(UserIcon)
       && FirstTestTrace(credentials)[j] == Press(SettingsIcon)) ==> i < j
  {
  }

  /** A test feature: its two robots, built once and sharing one output, and the
      credentials it logs in with. */
  class TestFeature {
    const console: Console
    const loginRobot: LoginViewRobot
    const dashboardRobot: DashbbboardViewRobot
    const credentials: LoginCredentials := LoginCredentials("user1", "abcd123")

    /** Both robots report to this feature's output. */
    ghost predicate Valid()
      reads this, loginRobot, loginRobot.base, dashboardRobot, dashboardRobot.base
    {
      loginRobot.base.console == console && dashboardRobot.base.console == console
    }

    constructor ()
      ensures Valid() && fresh(console) && console.events == []
    {
      var out := new Console();
      var loginBase := new BaseTest(out);
      var dashboardBase := new BaseTest(out);
      console := out;
      loginRobot := new LoginViewRobot(loginBase);
      dashboardRobot := new DashbbboardViewRobot(dashboardBase);
    }

    /** Logs in, then presses the user icon and the settings icon; reports exactly
        these five actions, in this order, and nothing else. */
    method TestFirstTest()
      requires Valid()
      modifies console
      ensures Valid()
      ensures console.events == old(console.events)
        + [EnterText("user1", UserNameTextField),
           EnterText("abcd123", PasswordTextField),
           Press(LoginButton),
           Press(UserIcon),
           Press(SettingsIcon)]
      ensures console.events == old(console.events) + FirstTestTrace(credentials)
    {
      var login := loginRobot.EnterCredentials(credentials);
      login := login.PressLoginButton();
      var dashboard := dashboardRobot.PressUserIcon();
      dashboard := dashboard.PressSettingsIcon();
    }
  }
}
