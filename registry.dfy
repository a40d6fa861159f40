/** The element registry: the closed set of UI elements the tests refer to, and the
    fixed table giving each one its accessibility identifier and its kind. */
module Registry {

  /** The kinds of UI element a test can refer to. */
  datatype ElementType = Button | TextField | Cell | Table | StaticText

  /** The named UI elements of the app under test (a closed enumeration). */
  datatype Element = LoginButton | UserNameTextField | PasswordTextField | UserIcon | SettingsIcon

  /** Where to find an element: its accessibility identifier and its kind
      (the source calls the kind `type`, a keyword here). */
  datatype ElementIdentifier = ElementIdentifier(id: string, kind: ElementType)

  /** An element's description: the enumeration's raw value, which is the case name. */
  function Description(e: Element): (s: string)
    ensures |s| > 0
  {
    match e
    case LoginButton => "loginButton"
    case UserNameTextField => "userNameTextField"
    case PasswordTextField => "passwordTextField"
    case UserIcon => "userIcon"
    case SettingsIcon => "settingsIcon"
  }

  /** The registry: every element with its identifier and kind. */
  const OttChildPairingElementList: map<Element, ElementIdentifier> := map[
    LoginButton := ElementIdentifier("loginButtonID", Button),
    UserNameTextField := ElementIdentifier("userNameID", TextField),
    PasswordTextField := ElementIdentifier("passwordID", TextField),
    UserIcon := ElementIdentifier("userIconCell", Cell),
    SettingsIcon := ElementIdentifier("settingsIconID", Button)
  ]

  /** Distinct elements have distinct descriptions. */
  lemma DescriptionInjective(a: Element, b: Element)
    ensures Description(a) == Description(b) <==> a == b
  {
  }

  /** The registry is total over the enumeration and holds nothing else. */
  lemma RegistryTotal()
    ensures forall e: Element :: e in OttChildPairingElementList
    ensures |OttChildPairingElementList| == 5
  {
    forall e: Element ensures e in OttChildPairingElementList {
      match e
      case LoginButton =>
      case UserNameTextField =>
      case PasswordTextField =>
      case UserIcon =>
      case SettingsIcon =>
    }
    assert OttChildPairingElementList.Keys
        == {LoginButton, UserNameTextField, PasswordTextField, UserIcon, SettingsIcon};
  }

  /** Identifiers are non-empty and pairwise distinct: element to identifier is injective. */
  lemma RegistryIdsDistinct(a: Element, b: Element)
    ensures a in OttChildPairingElementList && b in OttChildPairingElementList
    ensures |OttChildPairingElementList[a].id| > 0
    ensures OttChildPairingElementList[a].id == OttChildPairingElementList[b].id <==> a == b
  {
  }

  /** The kind of every entry, and that no entry is a table or a static text. */
  lemma RegistryKinds(e: Element)
    ensures e in OttChildPairingElementList
    ensures OttChildPairingElementList[e].kind == TextField
        <==> e == UserNameTextField || e == PasswordTextField
    ensures OttChildPairingElementList[e].kind == Button <==> e == LoginButton || e == SettingsIcon
    ensures OttChildPairingElementList[e].kind == Cell <==> e == UserIcon
    ensures OttChildPairingElementList[e].kind != Table && OttChildPairingElementList[e].kind != StaticText
  {
  }
}
