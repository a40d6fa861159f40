# Robot-pattern UI test sample, modelled in Dafny

This project models the Swift playground `AutomationPlayground.playground/Contents.swift`,
a small illustration of the "robot pattern" for UI test automation:

- **Element registry** (`registry.dfy`, module `Registry`): the closed enumeration of UI
  elements (`Element`), the element kinds (`ElementType`), the identifier record
  (`ElementIdentifier`; the Swift field `type` is called `kind` here because `type` is a
  Dafny keyword), each element's `Description` (its raw value, i.e. its case name), and the
  constant dictionary `OttChildPairingElementList`. Lemmas state that the dictionary is
  total over the enumeration, that its identifiers are non-empty and pairwise distinct,
  and the kind of every entry.
- **Action primitives** (`actions.dfy`, module `Actions`): `BaseTest` with
  `EnterTextInToTextField` and `PressElement`. In the source these only print a line; here
  each print is one structured `Event` (`EnterText(text, element)` or `Press(element)`)
  appended to the `events` of a `Console` object, the shared output. No kind check is
  made, as in the source.
- **Screen robots** (`robots.dfy`, module `Robots`): `LoginViewRobot` and
  `DashbbboardViewRobot` (the source's spelling) with the methods `EnterCredentials`,
  `PressLoginButton`, `PressUserIcon` and `PressSettingsIcon`. Each appends exactly its
  events to the shared output and returns the same robot, so calls chain. The source's
  inheritance from `BaseTest` is modelled by composition: each robot holds a `base:
  BaseTest`. Beside the classes, `RobotCall`, `Effect` and `ChainTrace` give the events of
  one call and of a chain of calls as values, with lemmas that chaining is sequencing,
  that a chain of a robot's own screen methods only touches the elements those methods
  name, and that every event of those methods agrees with
  the registry's kinds (text only into text fields, presses only on other elements).
- **Scenario** (`scenario.dfy`, module `Scenario`): `TestFeature` owns the two robots,
  both reporting to one output, and the fixed credentials `("user1", "abcd123")`;
  `TestFirstTest` produces exactly five events in a fixed order and nothing else.

## Model

| member | source | states |
|---|---|---|
| Registry.Description | AutomationPlayground.playground/Contents.swift:25-28 | an element's description (its raw value, the case name) is never empty |
| Registry.DescriptionInjective | AutomationPlayground.playground/Contents.swift:25-28 | two elements have the same description exactly when they are the same element |
| Registry.RegistryTotal | AutomationPlayground.playground/Contents.swift:40-46 | every case of the element enumeration has an entry in the registry, and the registry has exactly five entries |
| Registry.RegistryIdsDistinct | AutomationPlayground.playground/Contents.swift:41-45 | every registry identifier is non-empty, and two entries share an identifier exactly when they are the same element |
| Registry.RegistryKinds | AutomationPlayground.playground/Contents.swift:41-45 | the user-name and password fields are exactly the text fields, the login button and settings icon exactly the buttons, the user icon exactly the cell; no entry is a table or static text |
| Actions.BaseTest.EnterTextInToTextField | AutomationPlayground.playground/Contents.swift:64-66 | appends exactly one `EnterText(text, element)` event to the output and changes nothing else |
| Actions.BaseTest.PressElement | AutomationPlayground.playground/Contents.swift:68-70 | appends exactly one `Press(element)` event, whatever the element's kind, and changes nothing else |
| Robots.Effect | AutomationPlayground.playground/Contents.swift:81-112 | a robot call reports at least one event; every event is on an element of the call's own screen and agrees with the registry's kinds; text is typed only by `enterCredentials` and is its user name or password |
| Robots.ChainTrace | AutomationPlayground.playground/Contents.swift:124-129 | a chain of calls reports at least one event per call, and every event agrees with the registry's kinds |
| Robots.ChainTraceAppend | AutomationPlayground.playground/Contents.swift:124-129 | chaining is sequencing: chain `a` then chain `b` reports the events of `a` followed by those of `b` |
| Robots.ChainTracePair | AutomationPlayground.playground/Contents.swift:124-126 | `r.a().b()` reports the events of `a` and then the events of `b` |
| Robots.ChainStaysOnScreen | AutomationPlayground.playground/Contents.swift:74-113 | a chain of one robot's own screen methods (`enterCredentials`, `pressLoginButton`, or `pressUserIcon`, `pressSettingsIcon`) only acts on the elements those methods name |
| Robots.LoginViewRobot.EnterCredentials | AutomationPlayground.playground/Contents.swift:81-86 | appends `EnterText(userName, userNameTextField)` then `EnterText(password, passwordTextField)`, nothing else, and returns the same robot |
| Robots.LoginViewRobot.PressLoginButton | AutomationPlayground.playground/Contents.swift:89-92 | appends exactly `Press(loginButton)` and returns the same robot |
| Robots.DashbbboardViewRobot.PressUserIcon | AutomationPlayground.playground/Contents.swift:103-106 | appends exactly `Press(userIcon)` (a cell) and returns the same robot |
| Robots.DashbbboardViewRobot.PressSettingsIcon | AutomationPlayground.playground/Contents.swift:109-112 | appends exactly `Press(settingsIcon)` and returns the same robot |
| Scenario.FirstTestTrace | AutomationPlayground.playground/Contents.swift:123-130 | the login chain followed by the dashboard chain reports, for any credentials, the two text entries, then the login, user-icon and settings-icon presses |
| Scenario.FirstTestWellFormed | AutomationPlayground.playground/Contents.swift:123-130 | the first test types only into text fields, presses only other elements, and presses the user icon strictly before the settings icon |
| Scenario.TestFeature.constructor | AutomationPlayground.playground/Contents.swift:117-121 | builds both robots over one fresh, empty output |
| Scenario.TestFeature.TestFirstTest | AutomationPlayground.playground/Contents.swift:121-130 | appends exactly `EnterText("user1", userNameTextField)`, `EnterText("abcd123", passwordTextField)`, `Press(loginButton)`, `Press(userIcon)`, `Press(settingsIcon)`, in that order, and nothing else |

## Left out

- `import UIKit`: nothing from it is used; there is no UI driver to model.
- The printed text and its string interpolation: each print is one structured event, not a line of console output.
- Swift `lazy var`: both robots are built once by the `TestFeature` constructor; when they are built is not observable in the model.
- Class inheritance from `BaseTest`: replaced by composition (each robot holds a `BaseTest`); the Swift robots each have their own `BaseTest` part, and both report to the one shared output, as print does.
- `@discardableResult` and the doc comments: compiler and documentation matters only.
- Kind checks, unknown-element errors, driver failures, waits, timeouts and retries: the code has none of them. The primitives accept any element, and `pressUserIcon` presses a cell. That the robots' own screen methods (`enterCredentials`, `pressLoginButton`, `pressUserIcon`, `pressSettingsIcon`) only type into text fields and only press other elements is stated as a property of those methods (`Robots.Effect`, `Scenario.FirstTestWellFormed`), not as a check.
- A separate registry lookup operation: the robots never consult the registry; the dictionary itself is modelled, with its totality as a lemma, so a lookup returning the same value twice needs no statement.
- `Robots.RobotCall`: lists only the four screen methods. The inherited primitives called directly on a robot (`loginRobot.pressElement(button: .settingsIcon)`, legal in the source and available in the model as `loginRobot.base.PressElement`) are not calls of a chain, so `Robots.Effect`, `Robots.ChainTrace` and `Robots.ChainStaysOnScreen` say nothing about them; such a call can act on any element, of any kind.
- Standard output shared by the whole process: each `TestFeature` has its own output, which stands for the part of standard output that feature produces.
