/**
 * The login screen (components/LoginScreen.tsx): the PIN digit filter, the submit guard and the
 * mock sign-in, which never consults the stored employees.
 */
module Login {
  import opened Options
  import opened Seqs
  import opened Strings

  /** The PIN field's change handler, `value.replace(/\D/g, '')`: digits only, in their order. */
  function DigitsOnly(value: string): (pin: string)
    ensures AllDigits(pin)
    ensures IsSubsequence(pin, value)
    ensures forall c :: multiset(pin)[c] == if IsDigit(c) then multiset(value)[c] else 0
  {
    var pin := Filter(value, IsDigit);
    FilterIsSubsequence(value, IsDigit);
    forall c ensures multiset(pin)[c] == if IsDigit(c) then multiset(value)[c] else 0 {
      FilterCount(value, IsDigit, c);
    }
    pin
  }

  /** Filtering an already filtered PIN changes nothing. */
  lemma DigitsOnlyIdempotent(value: string)
    ensures DigitsOnly(DigitsOnly(value)) == DigitsOnly(value)
  {
    FilterIdempotent(value, IsDigit);
  }

  /** A value made of digits passes through unchanged. */
  lemma DigitsOnlyKeepsDigits(value: string)
    requires AllDigits(value)
    ensures DigitsOnly(value) == value
  {
    FilterKeepsAll(value, IsDigit);
  }

  /** `handleLogin`'s guard: a phone number and a PIN of exactly four characters. */
  predicate CanSubmit(phoneNumber: string, pin: string): (ok: bool)
    ensures ok <==> |phoneNumber| > 0 && |pin| == 4
  {
    phoneNumber != "" && |pin| == 4
  }

  /** The login button's `disabled` property. */
  predicate LoginDisabled(phoneNumber: string, pin: string, isLoading: bool): (disabled: bool)
    ensures isLoading ==> disabled
    ensures !disabled <==> CanSubmit(phoneNumber, pin) && !isLoading
  {
    !CanSubmit(phoneNumber, pin) || isLoading
  }

  const NamedPrefix := "9876"
  const NamedUser := "Ramesh"
  const DefaultUser := "Employee"

  /** The mock user name, chosen by the phone number's prefix alone. */
  function MockUserName(phoneNumber: string): (name: string)
    ensures name == NamedUser <==> StartsWith(phoneNumber, NamedPrefix)
    ensures name == NamedUser || name == DefaultUser
  {
    if StartsWith(phoneNumber, NamedPrefix) then NamedUser else DefaultUser
  }

  const TokenPrefix := "mock-jwt-token-"

  /** The mock token: the prefix followed by the current time in decimal. */
  function MockToken(now: nat): (token: string)
    ensures StartsWith(token, TokenPrefix)
    ensures |token| > |TokenPrefix| && AllDigits(token[|TokenPrefix|..])
    ensures DecimalValue(token[|TokenPrefix|..]) == now
    ensures token[|TokenPrefix|] == '0' <==> now == 0
  {
    var token := TokenPrefix + NatToDecimal(now);
    assert token[|TokenPrefix|..] == NatToDecimal(now);
    DecimalRoundTrip(now);
    token
  }

  /** Tokens issued at different times differ. */
  lemma MockTokensDistinct(a: nat, b: nat)
    requires a != b
    ensures MockToken(a) != MockToken(b)
  {
  }

  /** The arguments the screen passes to `onLogin`: a token and a user name, and nothing else. */
  datatype LoginCall = LoginCall(token: string, userName: string)

  class LoginScreen {
    var phoneNumber: string
    var pin: string
    var isLoading: bool
    /** The browser's localStorage as far as this screen writes it. */
    var localStorage: map<string, string>

    constructor (localStorage: map<string, string>)
      ensures phoneNumber == "" && pin == "" && !isLoading && this.localStorage == localStorage
    {
      phoneNumber := "";
      pin := "";
      isLoading := false;
      this.localStorage := localStorage;
    }

    method ChangePhoneNumber(value: string)
      modifies this`phoneNumber
      ensures phoneNumber == value
    {
      phoneNumber := value;
    }

    method ChangePin(value: string)
      modifies this`pin
      ensures pin == DigitsOnly(value)
    {
      pin := DigitsOnly(value);
    }

    /**
     * `handleLogin`: when the guard passes, a timer is started that will sign in with the phone
     * number as it is now; `pending` is that captured number. The guard does not look at
     * `isLoading`: only the disabled button keeps a second timer from starting.
     */
    method HandleLogin() returns (pending: Option<string>)
      modifies this`isLoading
      ensures pending == if CanSubmit(phoneNumber, pin) then Some(phoneNumber) else None
      ensures isLoading == (CanSubmit(phoneNumber, pin) || old(isLoading))
      ensures !LoginDisabled(phoneNumber, pin, old(isLoading)) ==> pending == Some(phoneNumber) && isLoading
    {
      if phoneNumber == "" || |pin| != 4 {
        return None;
      }
      isLoading := true;
      pending := Some(phoneNumber);
    }

    /** The timer's callback: the mock token and name are stored and handed to `onLogin`. */
    method CompleteMockLogin(capturedPhone: string, now: nat) returns (call: LoginCall)
      modifies this`localStorage, this`isLoading
      ensures call == LoginCall(MockToken(now), MockUserName(capturedPhone))
      ensures localStorage == old(localStorage)["authToken" := call.token]["userName" := call.userName]
      ensures !isLoading
    {
      var mockToken := MockToken(now);
      var mockUserName := MockUserName(capturedPhone);
      localStorage := localStorage["authToken" := mockToken];
      localStorage := localStorage["userName" := mockUserName];
      call := LoginCall(mockToken, mockUserName);
      isLoading := false;
    }
  }
}
