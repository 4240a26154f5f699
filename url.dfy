/**
 * The endpoint registry of the client's request layer and the predicate that
 * tells which routes may be called without an authentication token
 * (src/api/_url.ts).
 */
module Url {
  import opened Wrappers

  /** The symbolic names of the `URL` registry, in declaration order. */
  datatype Endpoint =
    | WxAuthorizeLoginCode  // one-tap WeChat login (new flow)
    | DoWxLogin             // quick WeChat login
    | MLogin                // login by phone number
    | Logout
    | SendSmsCheck          // slider captcha before an SMS code
    | SendSms               // send an SMS verification code
    | GetLoginUser          // profile of the logged-in user

  /** The path literal the registry binds to each name. */
  function Path(e: Endpoint): (p: string)
    ensures |p| > 1 && p[0] == '/'
  {
    match e
    case WxAuthorizeLoginCode => "/login/wxAuthorizeLoginCode"
    case DoWxLogin => "/login/doWxLogin"
    case MLogin => "/mlogin"
    case Logout => "/logout"
    case SendSmsCheck => "/sendSmsCheck"
    case SendSms => "/sendSms"
    case GetLoginUser => "/getLoginUser"
  }

  /** Every name of the registry, in the order the object literal lists them. */
  const Registry: seq<Endpoint> :=
    [WxAuthorizeLoginCode, DoWxLogin, MLogin, Logout, SendSmsCheck, SendSms, GetLoginUser]

  /** The routes that bypass authentication, in source order. */
  const WhiteList: seq<string> :=
    [Path(WxAuthorizeLoginCode), Path(DoWxLogin), Path(MLogin), Path(SendSmsCheck), Path(SendSms)]

  /**
   * `Array.prototype.includes` on an array of strings: a scan from the first
   * element comparing by string content.
   */
  function Includes(xs: seq<string>, x: string): (r: bool)
    ensures r <==> x in xs
  {
    if xs == [] then false
    else if xs[0] == x then true
    else Includes(xs[1..], x)
  }

  /**
   * JavaScript truthiness of an optional string: `undefined` and the empty
   * string are falsy, every other string is truthy.
   */
  predicate Truthy(path: Option<string>)
    ensures !Truthy(path) <==> path == None || path == Some("")
    ensures Truthy(path) ==> |path.value| > 0
  {
    match path
    case None => false
    case Some(s) => s != ""
  }

  /**
   * `isWhiteList(path?)`: a falsy argument (absent or empty) is permitted by
   * default; any other path is permitted exactly when it is on the white list.
   */
  function IsWhiteList(path: Option<string>): (r: bool)
    ensures path == None ==> r
    ensures path == Some("") ==> r
    ensures forall p :: path == Some(p) && p != "" ==> (r <==> p in WhiteList)
  {
    if Truthy(path) then Includes(WhiteList, path.value) else true
  }

  /** The registry lists each name once and names every endpoint. */
  lemma RegistryComplete()
    ensures |Registry| == 7
    ensures forall e: Endpoint :: e in Registry
  {
    forall e: Endpoint ensures e in Registry {
      match e
      case WxAuthorizeLoginCode => assert Registry[0] == e;
      case DoWxLogin => assert Registry[1] == e;
      case MLogin => assert Registry[2] == e;
      case Logout => assert Registry[3] == e;
      case SendSmsCheck => assert Registry[4] == e;
      case SendSms => assert Registry[5] == e;
      case GetLoginUser => assert Registry[6] == e;
    }
  }

  /** Distinct names have distinct paths, so a path identifies its endpoint. */
  lemma PathInjective(a: Endpoint, b: Endpoint)
    ensures Path(a) == Path(b) ==> a == b
  {
  }

  /** The seven registry paths are pairwise distinct. */
  lemma RegistryPathsDistinct()
    ensures forall i, j :: 0 <= i < j < |Registry| ==> Path(Registry[i]) != Path(Registry[j])
  {
  }

  /**
   * The white list has five entries, each the path of a registry name, and
   * no entry repeats.
   */
  lemma WhiteListInRegistry()
    ensures |WhiteList| == 5
    ensures forall i :: 0 <= i < |WhiteList| ==> exists e :: e in Registry && Path(e) == WhiteList[i]
    ensures forall i, j :: 0 <= i < j < |WhiteList| ==> WhiteList[i] != WhiteList[j]
  {
  }

  /**
   * A registry route bypasses authentication exactly when it is not
   * `logout` or `getLoginUser`.
   */
  lemma EndpointWhiteListed(e: Endpoint)
    ensures IsWhiteList(Some(Path(e))) <==> e != Logout && e != GetLoginUser
  {
  }

  /**
   * Reference reading of the predicate: an argument is permitted when it is
   * falsy, or when it is the path of one of the five names that need no token.
   */
  lemma IsWhiteListByEndpoint(path: Option<string>)
    ensures IsWhiteList(path) <==>
      !Truthy(path) || exists e :: e != Logout && e != GetLoginUser && Some(Path(e)) == path
  {
  }

  /** Omitting the argument is permitted by default. */
  lemma AbsentIsWhiteListed()
    ensures IsWhiteList(None)
  {
  }

  /** The empty string is falsy, so it too takes the default-permit branch. */
  lemma EmptyIsWhiteListed()
    ensures IsWhiteList(Some(""))
  {
  }

  /** The five white-listed literals are permitted. */
  lemma WhiteListedLiterals()
    ensures IsWhiteList(Some("/login/wxAuthorizeLoginCode"))
    ensures IsWhiteList(Some("/login/doWxLogin"))
    ensures IsWhiteList(Some("/mlogin"))
    ensures IsWhiteList(Some("/sendSmsCheck"))
    ensures IsWhiteList(Some("/sendSms"))
  {
  }

  /** `logout` and `getLoginUser` still need a token. */
  lemma ProtectedLiterals()
    ensures !IsWhiteList(Some("/logout"))
    ensures !IsWhiteList(Some("/getLoginUser"))
  {
  }

  /**
   * Matching is by whole string: an extension of a listed path, a prefix of
   * one, or an unknown route is refused.
   */
  lemma ExactMatchOnly()
    ensures !IsWhiteList(Some("/sendSms/extra"))
    ensures !IsWhiteList(Some("/login"))
    ensures !IsWhiteList(Some("/unknown/path"))
  {
  }
}
