/**
 * The code-entry screen of the admin login: six one-digit slots, a verify call that clears the
 * slots when it fails, and a resend button locked by a 60-second countdown. The countdown's
 * one-second timer is the method `Tick`.
 */
module TwoFactor {
  import opened Wrappers
  import opened Text

  const CodeLength: nat := 6
  const ResendDelay: int := 60

  /** Six empty slots. */
  const EmptyCode: seq<string> := ["", "", "", "", "", ""]

  /** `code.join('')`. */
  function Concat(slots: seq<string>): (r: string)
    ensures |r| == if slots == [] then 0 else |slots[0]| + |Concat(slots[1..])|
  {
    if slots == [] then "" else slots[0] + Concat(slots[1..])
  }

  /** Every slot holds at most one character. */
  predicate SlotsShort(slots: seq<string>) { forall i :: 0 <= i < |slots| ==> |slots[i]| <= 1 }

  /** With one-character slots, the joined code has full length exactly when no slot is empty. */
  lemma {:induction false} ConcatLength(slots: seq<string>)
    requires SlotsShort(slots)
    ensures |Concat(slots)| <= |slots|
    ensures |Concat(slots)| == |slots| <==> forall i :: 0 <= i < |slots| ==> slots[i] != ""
  {
    if slots != [] {
      ConcatLength(slots[1..]);
      assert forall i :: 1 <= i < |slots| ==> slots[i] == slots[1..][i - 1];
    }
  }

  /** An accepted keystroke: at most one character, and only digits. */
  predicate AcceptedInput(value: string) { |value| <= 1 && AllDigits(value) }

  /** `formatPhoneNumber`: only `+7` numbers get a mask; anything else is shown as given. */
  function FormatPhone(phone: string): (r: string)
    ensures !StartsWith(phone, "+7") ==> r == phone
    ensures StartsWith(phone, "+7") ==> StartsWith(r, "+7 (")
  {
    if StartsWith(phone, "+7") then
      "+7 (" + Slice(phone, 2, 5) + ") " + Slice(phone, 5, 8) + "-" + Slice(phone, 8, 10) + "-" + Slice(phone, 10, 12)
    else phone
  }

  /** The screen's state. */
  class CodeEntry {
    var code: seq<string>
    var isLoading: bool
    var error: string
    var countdown: int
    var canResend: bool

    ghost predicate Valid()
      reads this
    {
      |code| == CodeLength && SlotsShort(code)
    }

    constructor()
      ensures Valid()
      ensures code == EmptyCode && countdown == ResendDelay && !canResend && error == "" && !isLoading
    {
      code := EmptyCode;
      isLoading := false;
      error := "";
      countdown := ResendDelay;
      canResend := false;
    }

    /** One run of the countdown effect: count down, or unlock resend at zero. */
    method Tick()
      modifies this
      ensures old(countdown) > 0 ==> countdown == old(countdown) - 1 && canResend == old(canResend)
      ensures old(countdown) <= 0 ==> countdown == old(countdown) && canResend
      ensures code == old(code) && error == old(error) && isLoading == old(isLoading)
    {
      if countdown > 0 {
        countdown := countdown - 1;
      } else {
        canResend := true;
      }
    }

    /**
     * `handleInputChange(index, value)`. Answers the code that is then submitted automatically,
     * which happens exactly when the keystroke fills the last empty slot.
     */
    method InputChange(index: nat, value: string) returns (autoSubmit: Option<string>)
      requires Valid() && index < CodeLength
      modifies this
      ensures Valid()
      ensures AcceptedInput(value) ==> code == old(code)[index := value]
      ensures !AcceptedInput(value) ==> code == old(code) && autoSubmit == None
      ensures autoSubmit.Some? <==> AcceptedInput(value) && forall i :: 0 <= i < CodeLength ==> code[i] != ""
      ensures autoSubmit.Some? ==> autoSubmit.value == Concat(code) && |autoSubmit.value| == CodeLength
      ensures isLoading == old(isLoading) && error == old(error)
      ensures countdown == old(countdown) && canResend == old(canResend)
    {
      autoSubmit := None;
      if |value| <= 1 && AllDigits(value) {
        var newCode := code[index := value];
        code := newCode;
        ConcatLength(newCode);
        if (forall i :: 0 <= i < CodeLength ==> newCode[i] != "") && |Concat(newCode)| == CodeLength {
          autoSubmit := Some(Concat(newCode));
        }
      }
    }

    /**
     * `handleVerify(codeToVerify)`; "" stands for no argument. `thrown` is what `onVerify`
     * throws, if anything. Answers the code passed to `onVerify`, if it was called.
     */
    method Verify(codeToVerify: string, thrown: Option<string>) returns (submitted: Option<string>)
      requires Valid()
      modifies this
      ensures Valid()
      ensures var attempt := if codeToVerify != "" then codeToVerify else Concat(old(code));
              if |attempt| != CodeLength then
                submitted == None && error == "Введите 6-значный код" && code == old(code) &&
                isLoading == old(isLoading)
              else
                submitted == Some(attempt) && !isLoading &&
                (thrown.Some? ==> error == thrown.value && code == EmptyCode) &&
                (thrown.None? ==> error == "" && code == old(code))
      ensures countdown == old(countdown) && canResend == old(canResend)
    {
      var attempt := if codeToVerify != "" then codeToVerify else Concat(code);
      if |attempt| != CodeLength {
        error := "Введите 6-значный код";
        return None;
      }
      error := "";
      isLoading := true;
      submitted := Some(attempt);
      if thrown.Some? {
        error := thrown.value;
        code := EmptyCode;
      }
      isLoading := false;
    }

    /**
     * `handleResend`. `thrown` is what `onResendCode` throws, if anything. Answers whether
     * `onResendCode` was called.
     */
    method Resend(thrown: Option<string>) returns (called: bool)
      requires Valid()
      modifies this
      ensures Valid()
      ensures called == old(canResend)
      ensures !called ==> code == old(code) && error == old(error) && countdown == old(countdown) &&
                          canResend == old(canResend) && isLoading == old(isLoading)
      ensures called && thrown.None? ==> countdown == ResendDelay && !canResend && code == EmptyCode && error == ""
      ensures called && thrown.Some? ==> error == thrown.value && code == old(code) && countdown == old(countdown) &&
                                         canResend == old(canResend)
      ensures called ==> !isLoading
    {
      if !canResend {
        return false;
      }
      called := true;
      error := "";
      isLoading := true;
      if thrown.None? {
        countdown := ResendDelay;
        canResend := false;
        code := EmptyCode;
      } else {
        error := thrown.value;
      }
      isLoading := false;
    }
  }
}
