/**
 * The phone-number step of the admin login: the input is reformatted on every keystroke as
 * `+996 (XXX) XX-XX-XX`, and on submit it is normalised to `+996` followed by digits.
 */
module PhoneInput {
  import opened Wrappers
  import opened Text

  /** At most 12 digits are kept: `996` and the nine digits of a Kyrgyz number. */
  const MaxDigits: nat := 12

  /** The digits of `value`, cut to the first twelve. */
  function Truncated(value: string): (t: string)
    ensures AllDigits(t) && |t| <= MaxDigits
    ensures |Digits(value)| <= MaxDigits ==> t == Digits(value)
    ensures |Digits(value)| > MaxDigits ==> t == Digits(value)[..MaxDigits]
  {
    var d := Digits(value);
    if |d| <= MaxDigits then d else d[..MaxDigits]
  }

  /** The layout of at most twelve digits; the first three are always shown as `996`. */
  function Layout(t: string): (r: string)
    requires |t| <= MaxDigits
  {
    if |t| == 0 then ""
    else if |t| <= 3 then "+996"
    else if |t| <= 6 then "+996 (" + t[3..] + ")"
    else if |t| <= 8 then "+996 (" + t[3..6] + ") " + t[6..]
    else if |t| <= 10 then "+996 (" + t[3..6] + ") " + t[6..8] + "-" + t[8..]
    else "+996 (" + t[3..6] + ") " + t[6..8] + "-" + t[8..10] + "-" + t[10..]
  }

  /** `formatPhoneNumber`. */
  function FormatPhone(value: string): (r: string)
    ensures Digits(value) == [] <==> r == ""
    ensures 1 <= |Digits(value)| <= 3 ==> r == "+996"
    ensures r != "" ==> StartsWith(r, "+996")
  {
    Layout(Truncated(value))
  }

  /** With twelve digits or more the whole mask is filled from the fourth to the twelfth digit. */
  lemma FullNumberLayout(value: string)
    requires |Digits(value)| >= MaxDigits
    ensures var d := Digits(value);
            FormatPhone(value) == "+996 (" + d[3..6] + ") " + d[6..8] + "-" + d[8..10] + "-" + d[10..12]
  {
    var d := Digits(value);
    var t := Truncated(value);
    assert t[3..6] == d[3..6] && t[6..8] == d[6..8] && t[8..10] == d[8..10] && t[10..] == d[10..12];
  }

  /** Digits typed after the third, or none when there are at most three. */
  function AfterCountryCode(t: string): string {
    if |t| <= 3 then "" else t[3..]
  }

  predicate NoDigits(s: string) { forall i :: 0 <= i < |s| ==> !IsDigit(s[i]) }

  lemma DigitsAcross(a: string, sep: string, b: string)
    requires NoDigits(sep)
    ensures Digits(a + sep + b) == Digits(a) + Digits(b)
  {
    var front := a + sep;
    DigitsOfNoDigits(sep);
    DigitsAppend(a, sep);
    assert Digits(a) + Digits(sep) == Digits(a);
    DigitsAppend(front, b);
  }

  lemma DigitsOfMaskStart()
    ensures Digits("+996 (") == "996" && Digits("+996") == "996"
  {
    DigitsOfNoDigits("+");
    DigitsOfNoDigits(" (");
    DigitsOfDigits("996");
    assert "+996" == "+" + "996";
    DigitsAppend("+", "996");
    assert "+996 (" == "+996" + " (";
    DigitsAppend("+996", " (");
  }

  /** The digits of the mask's opening followed by digits. */
  lemma MaskHead(x: string)
    requires AllDigits(x)
    ensures Digits("+996 (" + x) == "996" + x
  {
    DigitsOfMaskStart();
    DigitsAppend("+996 (", x);
    DigitsOfDigits(x);
  }

  /** Appending a separator without digits and then digits adds just those digits. */
  lemma DigitsStep(p: string, sep: string, x: string)
    requires NoDigits(sep) && AllDigits(x)
    ensures Digits(p + sep + x) == Digits(p) + x
  {
    DigitsAcross(p, sep, x);
    DigitsOfDigits(x);
  }

  lemma DigitsOfShortLayout(t: string)
    requires 4 <= |t| <= 6 && AllDigits(t)
    ensures Digits(Layout(t)) == "996" + t[3..]
  {
    MaskHead(t[3..]);
    DigitsAppend("+996 (" + t[3..], ")");
    DigitsOfNoDigits(")");
  }

  lemma DigitsOfMediumLayout(t: string)
    requires 7 <= |t| <= 8 && AllDigits(t)
    ensures Digits(Layout(t)) == "996" + t[3..]
  {
    var p1 := "+996 (" + t[3..6];
    MaskHead(t[3..6]);
    DigitsStep(p1, ") ", t[6..]);
    assert Layout(t) == p1 + ") " + t[6..];
    assert t[3..] == t[3..6] + t[6..];
  }

  lemma DigitsOfLongLayout(t: string)
    requires 9 <= |t| <= 10 && AllDigits(t)
    ensures Digits(Layout(t)) == "996" + t[3..]
  {
    var head := t[..8];
    DigitsOfMediumLayout(head);
    assert Layout(t) == Layout(head) + "-" + t[8..];
    DigitsStep(Layout(head), "-", t[8..]);
    assert t[3..] == head[3..] + t[8..];
  }

  lemma DigitsOfFullLayout(t: string)
    requires 11 <= |t| <= 12 && AllDigits(t)
    ensures Digits(Layout(t)) == "996" + t[3..]
  {
    var head := t[..10];
    DigitsOfLongLayout(head);
    assert Layout(t) == Layout(head) + "-" + t[10..];
    DigitsStep(Layout(head), "-", t[10..]);
    assert t[3..] == head[3..] + t[10..];
  }

  /** The digits of a layout: `996` and then the typed digits from the fourth on. */
  lemma DigitsOfLayout(t: string)
    requires |t| <= MaxDigits && AllDigits(t)
    ensures Digits(Layout(t)) == if t == [] then [] else "996" + AfterCountryCode(t)
  {
    if |t| == 0 {
    } else if |t| <= 3 {
      DigitsOfMaskStart();
    } else if |t| <= 6 {
      DigitsOfShortLayout(t);
    } else if |t| <= 8 {
      DigitsOfMediumLayout(t);
    } else if |t| <= 10 {
      DigitsOfLongLayout(t);
    } else {
      DigitsOfFullLayout(t);
    }
  }

  /** A layout depends only on how many digits there are and on those after the third. */
  lemma LayoutOfSameTail(a: string, b: string)
    requires |a| == |b| <= MaxDigits && AfterCountryCode(a) == AfterCountryCode(b)
    ensures Layout(a) == Layout(b)
  {
    if |a| > 3 {
      assert a[3..] == b[3..];
      forall i | 3 <= i < |a|
        ensures a[i] == b[i]
      {
        assert a[i] == a[3..][i - 3];
      }
      if |a| <= 6 {
      } else if |a| <= 8 {
        assert a[3..6] == b[3..6] && a[6..] == b[6..];
      } else if |a| <= 10 {
        assert a[3..6] == b[3..6] && a[6..8] == b[6..8] && a[8..] == b[8..];
      } else {
        assert a[3..6] == b[3..6] && a[6..8] == b[6..8] && a[8..10] == b[8..10] && a[10..] == b[10..];
      }
    }
  }

  /** Formatting is idempotent: a formatted number is shown unchanged when formatted again. */
  lemma FormatIdempotent(value: string)
    ensures FormatPhone(FormatPhone(value)) == FormatPhone(value)
  {
    var t := Truncated(value);
    DigitsOfLayout(t);
    var d := Digits(Layout(t));
    if t != [] {
      assert |d| == if |t| <= 3 then 3 else |t|;
      assert Truncated(Layout(t)) == d;
      if |t| <= 3 {
        assert Layout(d) == "+996" == Layout(t);
      } else {
        assert d[3..] == t[3..];
        LayoutOfSameTail(d, t);
      }
    }
  }

  /** `getRawPhoneNumber`: the digits, prefixed with `+` when they start with 996, else with `+996`. */
  function RawPhone(formatted: string): (r: string)
    ensures StartsWith(r, "+996") && AllDigits(r[1..])
    ensures |Digits(formatted)| <= |r| - 1 <= |Digits(formatted)| + 3
    ensures r[|r| - |Digits(formatted)|..] == Digits(formatted)
    ensures StartsWith(Digits(formatted), "996") ==> r[1..] == Digits(formatted)
    ensures !StartsWith(Digits(formatted), "996") ==> r == "+996" + Digits(formatted)
  {
    var d := Digits(formatted);
    if StartsWith(d, "996") then "+" + d else "+996" + d
  }

  /**
   * On a formatted number the submit check agrees with the disabled button: the raw number has
   * at least 13 characters exactly when the field shows twelve digits.
   */
  lemma SubmitCheckMatchesButton(value: string)
    ensures |RawPhone(FormatPhone(value))| >= 13 <==> |Digits(FormatPhone(value))| >= MaxDigits
  {
    DigitsOfLayout(Truncated(value));
  }

  /**
   * The number submitted for what the field shows is `+996` followed by the digits typed after
   * the country code; for a full entry, those are the fourth to the twelfth digit typed.
   */
  lemma RawPhoneOfField(value: string)
    requires Digits(value) != []
    ensures RawPhone(FormatPhone(value)) == "+996" + AfterCountryCode(Truncated(value))
    ensures |Digits(value)| >= MaxDigits ==> RawPhone(FormatPhone(value)) == "+996" + Digits(value)[3..MaxDigits]
  {
    var t := Truncated(value);
    DigitsOfLayout(t);
    var d := Digits(FormatPhone(value));
    var tail := AfterCountryCode(t);
    assert d == "996" + tail;
    assert d[..3] == "996";
    assert RawPhone(FormatPhone(value)) == "+" + d;
    assert "+" + ("996" + tail) == "+996" + tail;
    if |Digits(value)| >= MaxDigits {
      assert t == Digits(value)[..MaxDigits];
      assert tail == Digits(value)[3..MaxDigits];
    }
  }

  /** The form's state. */
  class PhoneForm {
    var phoneNumber: string
    var isLoading: bool
    var error: string

    constructor()
      ensures phoneNumber == "" && !isLoading && error == ""
    {
      phoneNumber := "";
      isLoading := false;
      error := "";
    }

    /** `handleInputChange`: store the reformatted value and clear the error. */
    method InputChange(value: string)
      modifies this
      ensures phoneNumber == FormatPhone(value) && error == "" && isLoading == old(isLoading)
    {
      phoneNumber := FormatPhone(value);
      error := "";
    }

    /**
     * `handleSubmit`. `thrown` is what `onSubmit` throws, if anything. Answers the number passed
     * to `onSubmit`, or `None` when the number is too short and `onSubmit` is not called.
     */
    method Submit(thrown: Option<string>) returns (submitted: Option<string>)
      modifies this
      ensures var raw := RawPhone(old(phoneNumber));
              if |raw| < 13 then
                submitted == None && error == "Введите полный номер телефона" && isLoading == old(isLoading)
              else
                submitted == Some(raw) && error == thrown.GetOr("") && !isLoading
      ensures phoneNumber == old(phoneNumber)
    {
      var raw := RawPhone(phoneNumber);
      if |raw| < 13 {
        error := "Введите полный номер телефона";
        return None;
      }
      error := "";
      isLoading := true;
      submitted := Some(raw);
      if thrown.Some? {
        error := thrown.value;
      }
      isLoading := false;
    }
  }
}
