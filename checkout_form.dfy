/**
  The checkout form's own validation step (`CheckoutForm.validate`). The
  declarative field validators of the form library run first and are taken
  here as one boolean, `baseValid`. When the payment method is the literal
  "credit", the four card fields must each hold something other than
  whitespace (checked in order, stopping at the first that does not), the card
  number must hold 13 to 19 digits once everything else is dropped, and those
  digits must pass the Luhn check. Each failure appends one error to one field
  and makes the form invalid.
 */
module CheckoutForm {
  import opened Wrappers
  import opened Luhn

  /** The card fields that the custom step can attach an error to. */
  datatype Field = CardNumber | CardExpiry | CardCvv | CardName

  /** One error appended to one field's error list. */
  datatype FieldError = FieldError(field: Field, message: string)

  /** The submitted form as the custom step sees it. A card field's data is
      `None` when the form library left it unset. */
  datatype Form = Form(
    baseValid: bool,
    paymentMethod: string,
    cardNumber: Option<string>,
    cardExpiry: Option<string>,
    cardCvv: Option<string>,
    cardName: Option<string>)

  /** A card field paired with the message it gets when it is left blank. */
  datatype CardEntry = CardEntry(data: Option<string>, field: Field, message: string)

  const CREDIT: string := "credit"
  const LENGTH_MESSAGE: string := "Invalid card number length"
  const CHECKSUM_MESSAGE: string := "Invalid card number"
  const MIN_DIGITS: int := 13
  const MAX_DIGITS: int := 19

  /** The data the form holds for one card field. */
  function FieldData(form: Form, field: Field): Option<string> {
    match field
    case CardNumber => form.cardNumber
    case CardExpiry => form.cardExpiry
    case CardCvv => form.cardCvv
    case CardName => form.cardName
  }

  /** The card fields in the order they are checked, with their messages. Each
      field appears once, paired with its own data, the card number first; the
      four messages differ from each other and from the two card number
      messages, so every error says which check failed. */
  function CardEntries(form: Form): (entries: seq<CardEntry>)
    ensures |entries| == 4
    ensures entries[0].field == CardNumber && entries[1].field == CardExpiry &&
            entries[2].field == CardCvv && entries[3].field == CardName
    ensures forall i :: 0 <= i < |entries| ==> entries[i].data == FieldData(form, entries[i].field)
    ensures forall i, j :: 0 <= i < j < |entries| ==>
      entries[i].field != entries[j].field && entries[i].message != entries[j].message
    ensures forall i :: 0 <= i < |entries| ==>
      entries[i].message != LENGTH_MESSAGE && entries[i].message != CHECKSUM_MESSAGE
  {
    [ CardEntry(form.cardNumber, CardNumber, "Card number is required"),
      CardEntry(form.cardExpiry, CardExpiry, "Expiry date is required"),
      CardEntry(form.cardCvv, CardCvv, "CVV is required"),
      CardEntry(form.cardName, CardName, "Name on card is required") ]
  }

  /** The characters that whitespace stripping removes, restricted to ASCII:
      tab, line feed, vertical tab, form feed, carriage return, the four
      separator controls 0x1C to 0x1F, and space. None of them is a digit. */
  function IsSpace(c: char): (space: bool)
    ensures space ==> c as int < 128 && !IsDigitChar(c)
  {
    '\t' <= c <= '\r' || '\U{1C}' <= c <= '\U{1F}' || c == ' '
  }

  /** `s` with its leading whitespace removed. */
  function TrimStart(s: string): (r: string)
    ensures |r| <= |s| && r == s[|s| - |r|..]
    ensures r == [] <==> forall i :: 0 <= i < |s| ==> IsSpace(s[i])
    ensures r != [] ==> !IsSpace(r[0])
    decreases |s|
  {
    if s != [] && IsSpace(s[0]) then TrimStart(s[1..]) else s
  }

  /** `s` with its trailing whitespace removed. */
  function TrimEnd(s: string): (r: string)
    ensures |r| <= |s| && r == s[..|r|]
    ensures r == [] <==> forall i :: 0 <= i < |s| ==> IsSpace(s[i])
    ensures r != [] ==> !IsSpace(r[|r| - 1])
    decreases |s|
  {
    if s != [] && IsSpace(s[|s| - 1]) then TrimEnd(s[..|s| - 1]) else s
  }

  /** Everything `TrimStart` removes is whitespace. */
  lemma {:induction false} TrimStartRemovesOnlySpace(s: string)
    ensures forall i :: 0 <= i < |s| - |TrimStart(s)| ==> IsSpace(s[i])
    decreases |s|
  {
    if s != [] && IsSpace(s[0]) {
      TrimStartRemovesOnlySpace(s[1..]);
      forall i | 1 <= i < |s| - |TrimStart(s)|
        ensures IsSpace(s[i])
      {
        assert s[i] == s[1..][i - 1];
      }
    }
  }

  /** Everything `TrimEnd` removes is whitespace. */
  lemma {:induction false} TrimEndRemovesOnlySpace(s: string)
    ensures forall i :: |TrimEnd(s)| <= i < |s| ==> IsSpace(s[i])
    decreases |s|
  {
    if s != [] && IsSpace(s[|s| - 1]) {
      TrimEndRemovesOnlySpace(s[..|s| - 1]);
    }
  }

  /** Whitespace stripping with no argument: whitespace removed from both
      ends. Nothing is left exactly when the text is all whitespace, and what
      is left neither starts nor ends with whitespace. */
  function Strip(s: string): (r: string)
    ensures |r| <= |s|
    ensures r == [] <==> forall i :: 0 <= i < |s| ==> IsSpace(s[i])
    ensures r != [] ==> !IsSpace(r[0]) && !IsSpace(r[|r| - 1])
  {
    TrimEnd(TrimStart(s))
  }

  /** Cutting `a` characters of whitespace off the front of `s`, and then
      whitespace off the back of what is left, keeps one stretch of `s` with
      whitespace on both sides of it. */
  lemma SpaceAround(s: string, t: string, r: string, a: nat)
    requires a <= |s| && t == s[a..] && |r| <= |t| && r == t[..|r|]
    requires forall i :: |r| <= i < |t| ==> IsSpace(t[i])
    ensures a + |r| <= |s| && r == s[a..a + |r|]
    ensures forall i :: a + |r| <= i < |s| ==> IsSpace(s[i])
  {
    forall i | a + |r| <= i < |s|
      ensures IsSpace(s[i])
    {
      assert s[i] == t[i - a];
    }
  }

  /** What `Strip` keeps is one stretch of the input, starting at `a`, and
      everything it removes on either side is whitespace. */
  lemma StripRemovesOnlyEndSpace(s: string) returns (a: nat)
    ensures a + |Strip(s)| <= |s| && Strip(s) == s[a..a + |Strip(s)|]
    ensures forall i :: 0 <= i < a ==> IsSpace(s[i])
    ensures forall i :: a + |Strip(s)| <= i < |s| ==> IsSpace(s[i])
  {
    var t := TrimStart(s);
    a := |s| - |t|;
    TrimStartRemovesOnlySpace(s);
    TrimEndRemovesOnlySpace(t);
    SpaceAround(s, t, TrimEnd(t), a);
  }

  /** A card field counts as missing when it has no data or holds nothing
      but whitespace. */
  predicate IsBlank(data: Option<string>) {
    data.None? || forall i :: 0 <= i < |data.value| ==> IsSpace(data.value[i])
  }

  /** The form's own test for a missing field (no data, or empty data, or
      nothing left after stripping) picks out exactly the blank fields. */
  lemma BlankIsStrippedEmpty(data: Option<string>)
    ensures IsBlank(data) <==> data.None? || data.value == "" || Strip(data.value) == ""
  {
  }

  /** The index of the first entry whose data is blank, if any. */
  function FirstBlank(entries: seq<CardEntry>): (r: Option<nat>)
    ensures r.Some? ==> r.value < |entries| && IsBlank(entries[r.value].data)
    ensures r.Some? ==> forall j :: 0 <= j < r.value ==> !IsBlank(entries[j].data)
    ensures r.None? <==> forall j :: 0 <= j < |entries| ==> !IsBlank(entries[j].data)
    decreases |entries|
  {
    if entries == [] then None
    else if IsBlank(entries[0].data) then Some(0)
    else
      var rest := entries[1..];
      assert forall j :: 0 <= j < |rest| ==> rest[j] == entries[j + 1];
      match FirstBlank(rest)
      case None => None
      case Some(k) => Some(k + 1)
  }

  predicate IsDigitChar(c: char) {
    '0' <= c <= '9'
  }

  /** Digit extraction over ASCII text: the values of the digit characters of
      `s`, in order, with every other character dropped. */
  function Digits(s: string): (ds: seq<int>)
    ensures IsDigits(ds)
    ensures |ds| <= |s|
    decreases |s|
  {
    if s == [] then []
    else (if IsDigitChar(s[0]) then [s[0] as int - '0' as int] else []) + Digits(s[1..])
  }

  /** Extraction works piecewise: the digits of a concatenation are the digits
      of the first part followed by those of the second. */
  lemma {:induction false} DigitsAppend(s: string, t: string)
    ensures Digits(s + t) == Digits(s) + Digits(t)
    decreases |s|
  {
    if s != [] {
      var head := if IsDigitChar(s[0]) then [s[0] as int - '0' as int] else [];
      assert (s + t)[0] == s[0] && (s + t)[1..] == s[1..] + t;
      DigitsAppend(s[1..], t);
      assert head + (Digits(s[1..]) + Digits(t)) == (head + Digits(s[1..])) + Digits(t);
    } else {
      assert s + t == t;
    }
  }

  /** Inserting a separator (any character that is not a digit) anywhere in
      the card number changes nothing that the length and checksum tests see. */
  lemma DigitsIgnoreSeparator(s: string, c: char, t: string)
    requires !IsDigitChar(c)
    ensures Digits(s + [c] + t) == Digits(s + t)
  {
    DigitsAppend(s + [c], t);
    DigitsAppend(s, [c]);
    DigitsAppend(s, t);
    assert [c][1..] == [];
  }

  /** A string made only of digit characters keeps every one of them, each
      standing for its own value. */
  lemma {:induction false} DigitsOfDigitString(s: string)
    requires forall i :: 0 <= i < |s| ==> IsDigitChar(s[i])
    ensures |Digits(s)| == |s|
    ensures forall i :: 0 <= i < |s| ==> Digits(s)[i] == s[i] as int - '0' as int
    decreases |s|
  {
    if s != [] {
      DigitsOfDigitString(s[1..]);
    }
  }

  predicate LengthOk(ds: seq<int>) {
    MIN_DIGITS <= |ds| <= MAX_DIGITS
  }

  /** The card number passes both the length test and the Luhn test. */
  predicate NumberAccepted(number: string) {
    LengthOk(Digits(number)) && LuhnValid(Digits(number))
  }

  /** The whole custom step succeeds. */
  predicate Accepted(form: Form) {
    form.baseValid &&
    (form.paymentMethod == CREDIT ==>
      FirstBlank(CardEntries(form)).None? && NumberAccepted(form.cardNumber.value))
  }

  /** `CheckoutForm.validate`: returns whether the form is valid and the one
      error it appended, if it appended one. */
  method Validate(form: Form) returns (ok: bool, error: Option<FieldError>)
    ensures ok == Accepted(form)
    ensures ok ==> error.None?
    // a failure of the base validators stops before any card field is looked at
    ensures !form.baseValid ==> error.None?
    // any other payment method needs no card data, even blank card fields pass
    ensures form.baseValid && form.paymentMethod != CREDIT ==> ok
    // the first blank card field, in the order number, expiry, CVV, name, gets the one error
    ensures form.baseValid && form.paymentMethod == CREDIT && FirstBlank(CardEntries(form)).Some? ==>
      var e := CardEntries(form)[FirstBlank(CardEntries(form)).value];
      !ok && error == Some(FieldError(e.field, e.message))
    // length and checksum failures are reported on the card number only, length first
    ensures form.baseValid && form.paymentMethod == CREDIT && FirstBlank(CardEntries(form)).None? ==>
      var ds := Digits(form.cardNumber.value);
      error == (if !LengthOk(ds) then Some(FieldError(CardNumber, LENGTH_MESSAGE))
                else if !LuhnValid(ds) then Some(FieldError(CardNumber, CHECKSUM_MESSAGE))
                else None)
  {
    if !form.baseValid {
      return false, None;
    }
    if form.paymentMethod == CREDIT {
      var cardFields := CardEntries(form);
      for i := 0 to |cardFields|
        invariant forall j :: 0 <= j < i ==> !IsBlank(cardFields[j].data)
      {
        if IsBlank(cardFields[i].data) {
          return false, Some(FieldError(cardFields[i].field, cardFields[i].message));
        }
      }
      assert !IsBlank(cardFields[0].data);
      var digits := Digits(form.cardNumber.value);
      if |digits| < MIN_DIGITS || |digits| > MAX_DIGITS {
        return false, Some(FieldError(CardNumber, LENGTH_MESSAGE));
      }
      var checksum := LuhnChecksum(digits);
      if checksum % 10 != 0 {
        return false, Some(FieldError(CardNumber, CHECKSUM_MESSAGE));
      }
    }
    return true, None;
  }

  /** Separators in the card number do not change whether it is accepted. */
  lemma SeparatorKeepsVerdict(s: string, c: char, t: string)
    requires !IsDigitChar(c)
    ensures NumberAccepted(s + [c] + t) == NumberAccepted(s + t)
  {
    DigitsIgnoreSeparator(s, c, t);
  }

  /** A number written with 12 digits fails the length test whatever its
      checksum. */
  lemma TwelveDigitsRejected(number: string)
    requires |Digits(number)| == 12
    ensures !NumberAccepted(number)
  {
  }

  // The test numbers below are passed in through a `requires` rather than
  // written into the `ensures`: a literal there makes `Digits` unroll until
  // the proof runs out of resource.

  /** The test card number 4532015112830366 passes. */
  lemma TestCardNumberAccepted(number: string)
    requires number == "4532015112830366"
    ensures NumberAccepted(number)
  {
    DigitsOfDigitString(number);
    assert Digits(number) == [4, 5, 3, 2, 0, 1, 5, 1, 1, 2, 8, 3, 0, 3, 6, 6];
    TestNumbers();
  }

  /** With its last digit changed, 4532015112830367, it fails. */
  lemma TestCardNumberOffByOneRejected(number: string)
    requires number == "4532015112830367"
    ensures !NumberAccepted(number)
  {
    DigitsOfDigitString(number);
    assert Digits(number) == [4, 5, 3, 2, 0, 1, 5, 1, 1, 2, 8, 3, 0, 3, 6, 7];
    TestNumbers();
  }

  /** Written in groups of four, the test card number still passes. */
  lemma TestCardNumberGroupedAccepted(number: string)
    requires number == "4532 0151 1283 0366"
    ensures NumberAccepted(number)
  {
    var once := number[..4] + number[5..];
    assert number == number[..4] + [' '] + number[5..];
    SeparatorKeepsVerdict(number[..4], ' ', number[5..]);
    assert once == "45320151 1283 0366";
    var twice := once[..8] + once[9..];
    assert once == once[..8] + [' '] + once[9..];
    SeparatorKeepsVerdict(once[..8], ' ', once[9..]);
    assert twice == "453201511283 0366";
    var plain := twice[..12] + twice[13..];
    assert twice == twice[..12] + [' '] + twice[13..];
    SeparatorKeepsVerdict(twice[..12], ' ', twice[13..]);
    assert plain == "4532015112830366";
    TestCardNumberAccepted(plain);
  }
}
