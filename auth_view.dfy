/** The three-step sign-in wizard: log in with a phone number and password, enter body
    data, pick a training goal. Its state fields change in place; the login request
    runs between `BeginPhoneLogin` and `CompletePhoneLogin`, and the app-wide token and
    signed-in flag live in the shared key/value store. */
module Auth {
  import opened Wrappers
  import SwiftInt
  import Network
  import Storage
  import Arith

  datatype TrainingGoal = Increase | Decrease | Shape | Specific

  /** `TrainingGoal.allCases`, in declaration order. */
  const AllGoals: seq<TrainingGoal> := [Increase, Decrease, Shape, Specific]

  /** `TrainingGoal.rawValue`: a lower-case English word. */
  function GoalRawValue(g: TrainingGoal): (raw: string)
    ensures raw != [] && forall i :: 0 <= i < |raw| ==> 'a' <= raw[i] <= 'z'
  {
    match g
    case Increase => "increase"
    case Decrease => "decrease"
    case Shape => "shape"
    case Specific => "specific"
  }

  /** `TrainingGoal(rawValue:)`. */
  function GoalFromRawValue(s: string): (g: Option<TrainingGoal>)
    ensures g.Some? ==> GoalRawValue(g.value) == s
  {
    match s
    case "increase" => Some(Increase)
    case "decrease" => Some(Decrease)
    case "shape" => Some(Shape)
    case "specific" => Some(Specific)
    case _ => None
  }

  /** `TrainingGoal.label`: the goal can be recovered from its label. */
  function GoalLabel(g: TrainingGoal): (text: string)
    ensures GoalWithLabel(text) == Some(g)
  {
    match g
    case Increase => "增肌"
    case Decrease => "减脂"
    case Shape => "塑形"
    case Specific => "专项"
  }

  /** `TrainingGoal.icon`: the goal can be recovered from its icon name. */
  function GoalIcon(g: TrainingGoal): (icon: string)
    ensures GoalWithIcon(icon) == Some(g)
  {
    match g
    case Increase => "figure.strengthtraining.traditional"
    case Decrease => "flame.fill"
    case Shape => "figure.walk"
    case Specific => "target"
  }

  /** The goal a label belongs to, if any. */
  function GoalWithLabel(text: string): Option<TrainingGoal> {
    match text
    case "增肌" => Some(Increase)
    case "减脂" => Some(Decrease)
    case "塑形" => Some(Shape)
    case "专项" => Some(Specific)
    case _ => None
  }

  /** The goal an icon name belongs to, if any. */
  function GoalWithIcon(icon: string): Option<TrainingGoal> {
    match icon
    case "figure.strengthtraining.traditional" => Some(Increase)
    case "flame.fill" => Some(Decrease)
    case "figure.walk" => Some(Shape)
    case "target" => Some(Specific)
    case _ => None
  }

  /** Every goal is listed once, reads back from its raw value, and has its own label
      and icon. */
  lemma GoalTables(g: TrainingGoal, h: TrainingGoal)
    ensures g in AllGoals && forall i, j :: 0 <= i < j < |AllGoals| ==> AllGoals[i] != AllGoals[j]
    ensures GoalFromRawValue(GoalRawValue(g)) == Some(g)
    ensures g != h ==> GoalLabel(g) != GoalLabel(h) && GoalIcon(g) != GoalIcon(h)
  {
  }

  /** The title over each wizard step; empty outside the three steps. */
  function StepTitle(step: int): (title: string)
    ensures title != "" <==> 0 <= step <= 2
  {
    match step
    case 0 => "登录"
    case 1 => "基本信息"
    case 2 => "训练目标"
    case _ => ""
  }

  /** The subtitle under each wizard step; empty outside the three steps. */
  function StepSubtitle(step: int): (subtitle: string)
    ensures subtitle != "" <==> 0 <= step <= 2
  {
    match step
    case 0 => "请登录后继续"
    case 1 => "请填写您的身体数据"
    case 2 => "选择您的训练目标"
    case _ => ""
  }

  /** The three steps have three different titles and three different subtitles. */
  lemma StepTextsDistinct(a: int, b: int)
    requires 0 <= a <= 2 && 0 <= b <= 2 && a != b
    ensures StepTitle(a) != StepTitle(b) && StepSubtitle(a) != StepSubtitle(b)
  {
  }

  /** The pattern `^1[3-9]\d{9}$`: eleven characters, a '1', a digit from 3 to 9, then
      nine digits. */
  predicate IsValidPhone(phone: string)
    ensures IsValidPhone(phone) ==> |phone| == 11 && SwiftInt.AllDigits(phone)
  {
    && |phone| == 11
    && phone[0] == '1'
    && '3' <= phone[1] <= '9'
    && forall i :: 2 <= i < 11 ==> SwiftInt.IsDigit(phone[i])
  }

  const LowestPhone: int := 13_000_000_000
  const HighestPhone: int := 19_999_999_999

  /** The accepted phone numbers are exactly the decimal forms of the integers from
      13000000000 to 19999999999. */
  lemma ValidPhonesAreNumbers(phone: string)
    ensures IsValidPhone(phone) <==>
      exists n :: LowestPhone <= n <= HighestPhone && phone == SwiftInt.IntToString(n)
  {
    if IsValidPhone(phone) {
      var n := SwiftInt.DigitsValue(phone);
      SwiftInt.NatToStringCanonical(phone);
      PhoneValueRange(phone);
      assert LowestPhone <= n <= HighestPhone && phone == SwiftInt.IntToString(n);
    }
    if exists n :: LowestPhone <= n <= HighestPhone && phone == SwiftInt.IntToString(n) {
      var n :| LowestPhone <= n <= HighestPhone && phone == SwiftInt.IntToString(n);
      NumberIsValidPhone(n);
    }
  }

  lemma PhoneValueRange(phone: string)
    requires IsValidPhone(phone)
    ensures SwiftInt.AllDigits(phone)
    ensures LowestPhone <= SwiftInt.DigitsValue(phone) <= HighestPhone
  {
    var head, rest := phone[..2], phone[2..];
    assert phone == head + rest;
    SwiftInt.DigitsValueAppend(head, rest);
    SwiftInt.DigitsValueBound(rest);
    assert head == [] + [head[0]] + [head[1]];
    SwiftInt.DigitsValueSnoc([], head[0]);
    SwiftInt.DigitsValueSnoc([head[0]], head[1]);
    assert [head[0]] + [head[1]] == head;
    assert 13 <= SwiftInt.DigitsValue(head) <= 19;
    assert SwiftInt.Pow10(9) == 1_000_000_000 by {
      assert SwiftInt.Pow10(3) == 1000;
      assert SwiftInt.Pow10(6) == 1_000_000;
    }
  }

  lemma NumberIsValidPhone(n: int)
    requires LowestPhone <= n <= HighestPhone
    ensures IsValidPhone(SwiftInt.IntToString(n))
  {
    var s := SwiftInt.NatToString(n);
    assert SwiftInt.Pow10(10) == 10_000_000_000 && SwiftInt.Pow10(11) == 100_000_000_000 && SwiftInt.Pow10(9) == 1_000_000_000 by {
      assert SwiftInt.Pow10(3) == 1000;
      assert SwiftInt.Pow10(6) == 1_000_000;
    }
    SwiftInt.NatToStringLength(n, 10);
    SwiftInt.NatToStringValue(n);
    var head, rest := s[..2], s[2..];
    assert s == head + rest;
    SwiftInt.DigitsValueAppend(head, rest);
    SwiftInt.DigitsValueBound(rest);
    assert head == [] + [head[0]] + [head[1]];
    SwiftInt.DigitsValueSnoc([], head[0]);
    SwiftInt.DigitsValueSnoc([head[0]], head[1]);
    assert [head[0]] + [head[1]] == head;
    var h := SwiftInt.DigitsValue(head);
    Arith.DivModUnique(n, 1_000_000_000, h, SwiftInt.DigitsValue(rest));
    assert 13 <= h <= 19;
    assert SwiftInt.DigitValue(head[0]) == 1;
  }

  const PhoneFormatMessage: string := "请输入正确的手机号码"
  const PasswordMissingMessage: string := "请输入密码"
  const ServerErrorPrefix: string := "服务器错误: "

  /** `handleError`: one message per kind of failure, the server's own message after a
      fixed prefix, and one message for everything else. */
  function HandleError(e: Network.NetworkError): (message: string)
    ensures e.ServerError? ==> message == ServerErrorPrefix + e.message
  {
    match e
    case Unauthorized => "用户名或密码错误"
    case NetworkFailure(_) => "网络连接错误"
    case ServerError(m) => ServerErrorPrefix + m
    case DecodingError => "数据解析错误"
    case _ => "未知错误"
  }

  /** Two errors that `handleError` treats alike: the same case among the four it names
      (server errors with the same message), or two errors it does not name. */
  predicate SameMessageCase(e1: Network.NetworkError, e2: Network.NetworkError) {
    || (e1.Unauthorized? && e2.Unauthorized?)
    || (e1.NetworkFailure? && e2.NetworkFailure?)
    || (e1.ServerError? && e2.ServerError? && e1.message == e2.message)
    || (e1.DecodingError? && e2.DecodingError?)
    || ((e1.InvalidURL? || e1.NoData?) && (e2.InvalidURL? || e2.NoData?))
  }

  /** Two errors get the same message exactly when `handleError` treats them alike; in
      particular the user can tell the four named failures apart, and two server
      errors apart by their messages. */
  lemma HandleErrorDistinguishes(e1: Network.NetworkError, e2: Network.NetworkError)
    ensures HandleError(e1) == HandleError(e2) <==> SameMessageCase(e1, e2)
  {
    var m1, m2 := HandleError(e1), HandleError(e2);
    if e1.ServerError? && e2.ServerError? && m1 == m2 {
      assert e1.message == m1[|ServerErrorPrefix|..] == m2[|ServerErrorPrefix|..] == e2.message;
    }
    assert e1.ServerError? ==> m1[0] == '服';
    assert e2.ServerError? ==> m2[0] == '服';
  }

  datatype LoginRequest = LoginRequest(phone: string, password: string)
  datatype LoginUser = LoginUser(id: string, phone: string, nickname: string)
  /** The login reply; `accessToken` is the wire field `access_token`. */
  datatype LoginResponse = LoginResponse(accessToken: string, user: LoginUser)

  /** The wizard's state. `dismissed` records that the view asked to be dismissed. */
  class AuthView {
    const defaults: Storage.UserDefaults
    var currentStep: int
    var phone: string
    var password: string
    var isLoading: bool
    var showError: bool
    var errorMessage: string
    var dismissed: bool

    /** The step never goes below the first one. */
    predicate Valid()
      reads this
    {
      currentStep >= 0
    }

    constructor (defaults: Storage.UserDefaults)
      ensures Valid() && this.defaults == defaults
      ensures currentStep == 0 && phone == "" && password == "" && !isLoading
      ensures !showError && errorMessage == "" && !dismissed
    {
      this.defaults := defaults;
      currentStep := 0;
      phone := "";
      password := "";
      isLoading := false;
      showError := false;
      errorMessage := "";
      dismissed := false;
    }

    /** `handleBack`: on the first step the wizard is dismissed and the step kept,
        otherwise it goes back one step. */
    method HandleBack()
      requires Valid()
      modifies this`currentStep, this`dismissed
      ensures Valid()
      ensures old(currentStep) == 0 ==> dismissed && currentStep == 0
      ensures old(currentStep) != 0 ==> currentStep == old(currentStep) - 1 && dismissed == old(dismissed)
    {
      if currentStep == 0 {
        dismissed := true;
      } else {
        currentStep := currentStep - 1;
      }
    }

    /** `handleNext`: on to the following step. */
    method HandleNext()
      requires Valid()
      modifies this`currentStep
      ensures Valid()
      ensures currentStep == old(currentStep) + 1
    {
      currentStep := currentStep + 1;
    }

    /** `handlePhoneLogin` up to the request. The error state is cleared; a malformed
        phone number, then an empty password, each stop with their message and no
        request. Otherwise loading starts and the request to send is returned. */
    method BeginPhoneLogin() returns (request: Option<LoginRequest>)
      modifies this`showError, this`errorMessage, this`isLoading
      ensures request.Some? <==> IsValidPhone(phone) && password != ""
      ensures !IsValidPhone(phone) ==> showError && errorMessage == PhoneFormatMessage
      ensures IsValidPhone(phone) && password == "" ==> showError && errorMessage == PasswordMissingMessage
      ensures request.None? ==> isLoading == old(isLoading)
      ensures request.Some? ==>
                request.value == LoginRequest(phone, password) && isLoading && !showError && errorMessage == ""
    {
      showError := false;
      errorMessage := "";
      if !IsValidPhone(phone) {
        showError := true;
        errorMessage := PhoneFormatMessage;
        return None;
      }
      if password == "" {
        showError := true;
        errorMessage := PasswordMissingMessage;
        return None;
      }
      isLoading := true;
      request := Some(LoginRequest(phone, password));
    }

    /** `handlePhoneLogin` after the request returned `outcome`. A reply stores its
        token and moves to the next step; a failure shows `handleError`'s message.
        Either way loading ends. */
    method CompletePhoneLogin(outcome: Result<LoginResponse, Network.NetworkError>)
      requires Valid()
      modifies this`isLoading, this`showError, this`errorMessage, this`currentStep, defaults
      ensures Valid() && !isLoading
      ensures outcome.Success? ==>
        && defaults.values == old(defaults.values)[Storage.AccessTokenKey := Storage.Text(outcome.value.accessToken)]
        && defaults.AccessToken() == outcome.value.accessToken
        && currentStep == old(currentStep) + 1
        && showError == old(showError) && errorMessage == old(errorMessage)
      ensures outcome.Failure? ==>
        && defaults.values == old(defaults.values) && currentStep == old(currentStep)
        && showError && errorMessage == HandleError(outcome.error)
    {
      match outcome {
        case Success(response) =>
          defaults.Set(Storage.AccessTokenKey, Storage.Text(response.accessToken));
          defaults.Set(Storage.AccessTokenKey, Storage.Text(response.accessToken));
          isLoading := false;
          HandleNext();
        case Failure(e) =>
          isLoading := false;
          showError := true;
          errorMessage := HandleError(e);
      }
    }

    /** `handleComplete` before its one-second delay: loading starts. */
    method BeginComplete()
      modifies this`isLoading
      ensures isLoading
    {
      isLoading := true;
    }

    /** `handleComplete` after the delay: loading ends, the user is marked signed in and
        the wizard is dismissed. */
    method FinishComplete()
      modifies this`isLoading, this`dismissed, defaults
      ensures !isLoading && dismissed
      ensures defaults.values == old(defaults.values)[Storage.IsAuthenticatedKey := Storage.Flag(true)]
      ensures defaults.IsAuthenticated()
    {
      isLoading := false;
      defaults.Set(Storage.IsAuthenticatedKey, Storage.Flag(true));
      dismissed := true;
    }

    /** `logout`: both keys are removed, then the two bound properties are assigned
        `false` and `""`, which writes those values back. Afterwards no token is sent
        and the user is signed out. */
    method Logout()
      modifies defaults
      ensures defaults.values == old(defaults.values)
        [Storage.IsAuthenticatedKey := Storage.Flag(false)][Storage.AccessTokenKey := Storage.Text("")]
      ensures defaults.AccessToken() == "" && !defaults.IsAuthenticated()
    {
      defaults.Remove(Storage.AccessTokenKey);
      defaults.Remove(Storage.IsAuthenticatedKey);
      defaults.Set(Storage.IsAuthenticatedKey, Storage.Flag(false));
      defaults.Set(Storage.AccessTokenKey, Storage.Text(""));
    }
  }
}
