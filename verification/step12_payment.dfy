/** The payment screen (src/components/signup/Step12Payment.tsx): card number and
    expiry inputs that reformat what is typed, and a "complete" that checks the
    card, expiry and CVV in order, writes the payment method and resets the wizard. */
module Step12Payment {
  import opened Wrappers
  import opened Text
  import opened SignupData
  import opened SignupContext

  const EmptyForm: PaymentMethod := PaymentMethod("", "", "", "")

  /** The form starts with the saved payment method, or empty. */
  function Mount(s: State): (form: PaymentMethod)
    ensures s.signupData.paymentMethod.Some? ==> form == s.signupData.paymentMethod.value
    ensures s.signupData.paymentMethod.None? ==> form == EmptyForm
  {
    s.signupData.paymentMethod.GetOr(EmptyForm)
  }

  // ---------------------------------------------------------------------------
  // Card number
  // ---------------------------------------------------------------------------

  /** `s.replace(/(\d{4})(?=\d)/g, '$1 ')` on a string of digits: a space after each
      run of four digits that another digit follows. */
  function Group(ds: string): (r: string)
    decreases |ds|
  {
    if |ds| > 4 then ds[..4] + " " + Group(ds[4..]) else ds
  }

  lemma {:induction false} GroupLength(ds: string)
    ensures |ds| <= 4 ==> |Group(ds)| == |ds|
    ensures |ds| > 4 ==> |Group(ds)| == |ds| + (|ds| - 1) / 4
    decreases |ds|
  {
    if |ds| > 4 {
      GroupLength(ds[4..]);
    }
  }

  /** Dropping the inserted spaces gives the digits back. */
  lemma {:induction false} KeepGroup(ds: string, keep: char -> bool)
    requires forall i :: 0 <= i < |ds| ==> keep(ds[i])
    requires !keep(' ')
    ensures Keep(Group(ds), keep) == ds
    decreases |ds|
  {
    if |ds| > 4 {
      KeepGroup(ds[4..], keep);
      KeepAppend(ds[..4] + " ", Group(ds[4..]), keep);
      KeepAppend(ds[..4], " ", keep);
      KeepWhenAllKept(ds[..4], keep);
      assert ds[..4] + ds[4..] == ds;
    } else {
      KeepWhenAllKept(ds, keep);
    }
  }

  /** The first `m` groups of a longer digit string are the groups of its first `4m` digits. */
  lemma {:induction false} GroupPrefix(ds: string, m: nat)
    requires m >= 1 && |ds| > 4 * m
    ensures |Group(ds)| >= 5 * m - 1
    ensures Group(ds)[..5 * m - 1] == Group(ds[..4 * m])
  {
    GroupLength(ds);
    if m > 1 {
      var rest := ds[4..];
      GroupPrefix(rest, m - 1);
      assert ds[..4 * m][4..] == rest[..4 * (m - 1)];
      assert ds[..4 * m][..4] == ds[..4];
    }
  }

  /** `formatCardNumber`: keep the digits, group them by four, cut at 19 characters. */
  function FormatCardNumber(value: string): (r: string)
    ensures |r| <= 19
  {
    Take(Group(Digits(value)), 19)
  }

  /** The formatted number is the grouping of the first sixteen digits typed. */
  lemma FormatCardNumberGroupsFirst16(value: string)
    ensures FormatCardNumber(value) == Group(Take(Digits(value), 16))
  {
    var ds := Digits(value);
    if |ds| > 16 {
      GroupPrefix(ds, 4);
    } else {
      GroupLength(ds);
    }
  }

  /** Formatting the formatted number changes nothing. */
  lemma FormatCardNumberIdempotent(value: string)
    ensures FormatCardNumber(FormatCardNumber(value)) == FormatCardNumber(value)
  {
    var t := Take(Digits(value), 16);
    FormatCardNumberGroupsFirst16(value);
    KeepGroup(t, IsDigit);
    FormatCardNumberGroupsFirst16(FormatCardNumber(value));
  }

  /** The submit check counts sixteen digits in a formatted number exactly when at
      least sixteen digits were typed. */
  lemma FormattedCardLength(value: string)
    ensures StripWhitespace(FormatCardNumber(value)) == Take(Digits(value), 16)
    ensures Units(StripWhitespace(FormatCardNumber(value))) == 16 <==> |Digits(value)| >= 16
  {
    var t := Take(Digits(value), 16);
    FormatCardNumberGroupsFirst16(value);
    KeepGroup(t, NotWhitespace);
    assert AllDigits(t) by { assert forall i :: 0 <= i < |t| ==> t[i] == Digits(value)[i]; }
    DigitsAreSingleUnits(t);
  }

  // ---------------------------------------------------------------------------
  // Expiry date
  // ---------------------------------------------------------------------------

  /** `formatExpiryDate`: keep the digits; from two digits on, put a '/' after the
      first two and keep at most two more. */
  function FormatExpiry(value: string): (r: string)
    ensures |r| <= 5
  {
    var c := Digits(value);
    if |c| >= 2 then c[..2] + "/" + Take(c[2..], 2) else c
  }

  /** `/^\d{2}\/\d{2}$/` */
  predicate IsExpiry(s: string) {
    |s| == 5 && IsDigit(s[0]) && IsDigit(s[1]) && s[2] == '/' && IsDigit(s[3]) && IsDigit(s[4])
  }

  /** A formatted expiry has the MM/YY shape exactly when at least four digits were typed. */
  lemma FormattedExpiryShape(value: string)
    ensures IsExpiry(FormatExpiry(value)) <==> |Digits(value)| >= 4
  {
  }

  /** Formatting the formatted expiry changes nothing. */
  lemma FormatExpiryIdempotent(value: string)
    ensures FormatExpiry(FormatExpiry(value)) == FormatExpiry(value)
  {
    var c := Digits(value);
    if |c| >= 2 {
      var t := Take(c[2..], 2);
      KeepAppend(c[..2] + "/", t, IsDigit);
      KeepAppend(c[..2], "/", IsDigit);
      DigitsOfDigits(c[..2]);
      DigitsOfDigits(t);
      var c' := Digits(FormatExpiry(value));
      assert c' == c[..2] + t;
      assert c'[..2] == c[..2] && c'[2..] == t;
    } else {
      DigitsOfDigits(c);
    }
  }

  // ---------------------------------------------------------------------------
  // Submission
  // ---------------------------------------------------------------------------

  datatype SubmitError =
    | InvalidCardNumber  // "Invalid card number"
    | InvalidExpiry      // "Invalid expiry date"
    | InvalidCvv         // "Invalid CVV"

  /** `handleSubmit`, once the simulated request has answered: sixteen UTF-16 code
      units besides white space in the card number, then an MM/YY expiry, then a CVV
      of at least three code units; the payment method is written, then `resetSignup`
      throws the whole draft away (the page then leaves for the dashboard). */
  function Submit(s: State, form: PaymentMethod): (r: Result<State, SubmitError>)
    ensures r == Err(InvalidCardNumber) <==> Units(StripWhitespace(form.cardNumber)) != 16
    ensures r == Err(InvalidExpiry) <==> Units(StripWhitespace(form.cardNumber)) == 16 && !IsExpiry(form.expiryDate)
    ensures r.Ok? <==> Units(StripWhitespace(form.cardNumber)) == 16 && IsExpiry(form.expiryDate) && Units(form.cvv) >= 3
    ensures r.Ok? ==> r.value == Fresh()
  {
    if Units(StripWhitespace(form.cardNumber)) != 16 then Err(InvalidCardNumber)
    else if !IsExpiry(form.expiryDate) then Err(InvalidExpiry)
    else if Units(form.cvv) < 3 then Err(InvalidCvv)
    else
      var written := UpdateSignupData(s, NoChange.(paymentMethod := Some(Some(form))));
      Ok(ResetSignup(written))
  }

  /** A form filled through the formatting inputs is accepted exactly when sixteen
      card digits, four expiry digits and three CVV code units were typed. */
  lemma TypedFormAccepted(s: State, cardText: string, expiryText: string, cvv: string, name: string)
    ensures Submit(s, PaymentMethod(FormatCardNumber(cardText), FormatExpiry(expiryText), cvv, name)).Ok? <==>
      |Digits(cardText)| >= 16 && |Digits(expiryText)| >= 4 && Units(cvv) >= 3
  {
    FormattedCardLength(cardText);
    FormattedExpiryShape(expiryText);
  }

  /** `handleGoBack`: the form is written to the draft as it stands (the browser then
      goes back a page; the step is not changed). */
  function Back(s: State, form: PaymentMethod): (r: State)
    ensures r.signupData.paymentMethod == Some(form)
    ensures r.currentStep == s.currentStep && r.completedSteps == s.completedSteps
    ensures OnlyChanged(s.signupData, r.signupData, {PaymentMethodField})
  {
    var p := NoChange.(paymentMethod := Some(Some(form)));
    assert forall f :: PatchGet(p, f).Some? <==> f == PaymentMethodField;
    UpdateSignupData(s, p)
  }

  /** Leaving by "back" and returning shows the same form. */
  lemma BackThenMountRestores(s: State, form: PaymentMethod)
    ensures Mount(Back(s, form)) == form
  {
  }
}
