/**
 * The login screen (app/index.tsx): the code field keeps at most six ASCII digits, and
 * submitting checks the length before posting the code.
 */
module LoginScreen {
  import opened Wrappers
  import opened Types
  import Text
  import Api

  const CodeLength: nat := 6
  const CodeError: string := "Enter the 6-digit code from your assistant"
  const LoginFallback: string := "Login failed"
  const ChatRoute: string := "/(app)/chat"

  /** `t.replace(/[^0-9]/g, "")`: the ASCII digits of `t`. */
  function FilterDigits(t: string): (r: string)
    ensures Text.AllDigits(r) && |r| <= |t|
  {
    if t == [] then []
    else (if Text.IsAsciiDigit(t[0]) then [t[0]] else []) + FilterDigits(t[1..])
  }

  /** Filtering distributes over concatenation, so the digits keep their input order. */
  lemma {:induction false} FilterDigitsAppend(a: string, b: string)
    ensures FilterDigits(a + b) == FilterDigits(a) + FilterDigits(b)
    decreases |a|
  {
    if a == [] {
      assert a + b == b;
    } else {
      assert (a + b)[0] == a[0];
      assert (a + b)[1..] == a[1..] + b;
      FilterDigitsAppend(a[1..], b);
    }
  }

  /** A single character survives exactly when it is a digit. */
  lemma FilterDigitsChar(c: char)
    ensures FilterDigits([c]) == (if Text.IsAsciiDigit(c) then [c] else [])
  {
    assert [c][1..] == [];
  }

  /** A string of digits is left alone. */
  lemma {:induction false} FilterDigitsKeepsDigits(t: string)
    requires Text.AllDigits(t)
    ensures FilterDigits(t) == t
  {
    if t != [] {
      assert Text.AllDigits(t[1..]) by {
        forall i | 0 <= i < |t| - 1 ensures Text.IsAsciiDigit(t[1..][i]) {
          assert t[1..][i] == t[i + 1];
        }
      }
      FilterDigitsKeepsDigits(t[1..]);
      assert t == [t[0]] + t[1..];
    }
  }

  /** `.slice(0, 6)`. */
  function Take(s: string, n: nat): (r: string)
    ensures r <= s && |r| == (if |s| < n then |s| else n)
  {
    if |s| <= n then s else s[..n]
  }

  /** The code field's sanitiser: the first six digits typed. */
  function Sanitize(t: string): (r: string)
    ensures Text.AllDigits(r) && |r| <= CodeLength
    ensures r <= FilterDigits(t)
    ensures |r| == if |FilterDigits(t)| < CodeLength then |FilterDigits(t)| else CodeLength
  {
    Take(FilterDigits(t), CodeLength)
  }

  /** Sanitising twice changes nothing further. */
  lemma SanitizeIdempotent(t: string)
    ensures Sanitize(Sanitize(t)) == Sanitize(t)
  {
    FilterDigitsKeepsDigits(Sanitize(t));
  }

  /** A string of digits is its own trim. */
  lemma TrimKeepsDigits(s: string)
    requires Text.AllDigits(s)
    ensures Text.Trim(s) == s
  {
    if s != [] {
      assert !Text.IsWhitespace(s[0]) && !Text.IsWhitespace(s[|s| - 1]);
      assert Text.TrimStart(s) == s;
    }
  }

  /** `err.message || "Login failed"`. */
  function LoginErrorText(message: string): (r: string)
    ensures r != ""
    ensures message != "" ==> r == message
    ensures message == "" ==> r == LoginFallback
  {
    if message != "" then message else LoginFallback
  }

  class LoginForm {
    var code: string
    var isLoading: bool
    var error: Option<string>

    /** What `onChangeText` maintains. */
    predicate Valid()
      reads this
    {
      Text.AllDigits(code) && |code| <= CodeLength
    }

    constructor ()
      ensures Valid() && code == "" && !isLoading && error == None
    {
      code, isLoading, error := "", false, None;
    }

    /** The button is enabled: a full code and no login in flight; a submit then posts. */
    function CanSubmit(): (r: bool)
      reads this
      ensures r <==> |code| == CodeLength && !isLoading
      ensures r && Valid() ==> |Text.Trim(code)| == CodeLength
    {
      if Valid() then
        TrimKeepsDigits(code);
        |code| == CodeLength && !isLoading
      else
        |code| == CodeLength && !isLoading
    }

    /** `onChangeText`: keep the sanitised text and clear the error. */
    method OnChangeText(t: string)
      modifies this
      ensures Valid() && code == Sanitize(t) && error == None && isLoading == old(isLoading)
    {
      code := Sanitize(t);
      error := None;
    }

    /**
     * `handleLogin`: a trimmed code that is not six characters long only sets the hint;
     * otherwise the code is posted, and success navigates to the chat while a throw shows
     * its message. The in-flight flag is down again afterwards.
     */
    method HandleLogin(store: Api.SecureStore, reply: Api.LoginReply)
      returns (posted: Option<string>, navigate: Option<string>)
      modifies this, store
      ensures posted.None? <==> |Text.Trim(old(code))| != CodeLength
      ensures posted.None? ==>
        error == Some(CodeError) && navigate.None? && isLoading == old(isLoading) &&
        store.items == old(store.items)
      ensures posted.Some? ==> posted.value == Text.Trim(old(code)) && !isLoading
      ensures posted.Some? && Api.LoginResult(reply).Success? ==>
        navigate == Some(ChatRoute) && error.None? &&
        store.items == Api.StoredLogin(old(store.items), Api.LoginResult(reply).value)
      ensures posted.Some? && Api.LoginResult(reply).Failure? ==>
        navigate.None? && error == Some(LoginErrorText(Api.LoginResult(reply).error)) &&
        store.items == old(store.items)
      ensures code == old(code)
    {
      var trimmed := Text.Trim(code);
      if |trimmed| != CodeLength {
        error := Some(CodeError);
        posted, navigate := None, None;
        return;
      }
      isLoading := true;
      error := None;
      posted := Some(trimmed);
      var r := Api.Login(store, reply);
      assert r == Api.LoginResult(reply) && code == old(code);
      if r.Success? {
        navigate := Some(ChatRoute);
      } else {
        navigate := None;
        error := Some(LoginErrorText(r.error));
      }
      isLoading := false;
    }
  }

  /** On a sanitised code, the button is enabled exactly when a submit would post. */
  lemma SubmitMatchesButton(code: string, isLoading: bool)
    requires Text.AllDigits(code) && |code| <= CodeLength
    ensures (|code| == CodeLength && !isLoading) ==> |Text.Trim(code)| == CodeLength
    ensures |Text.Trim(code)| == CodeLength ==> |code| == CodeLength
  {
    TrimKeepsDigits(code);
  }
}
