/** The payment dialog: the four-step form validation, the normalisers that
    the card number, expiry and CVV inputs apply to every keystroke, and the
    dialog state that submitting and closing update. */
module Payment {
  import opened Optional
  import opened Seqs
  import opened Text

  /** The first check that failed, one per message the form can show. */
  datatype FormError = MissingName | BadCardNumber | BadExpiry | BadCvv

  /** The toast each failed check shows. */
  function ErrorMessage(e: FormError): string
  {
    match e
    case MissingName => "Please enter cardholder name"
    case BadCardNumber => "Card number must be 16 digits"
    case BadExpiry => "Expiry date must be in MM/YY format"
    case BadCvv => "CVV must be 3 digits"
  }

  /** Each failed check shows its own message. */
  lemma ErrorMessagesDistinct(e: FormError, f: FormError)
    ensures e != f ==> ErrorMessage(e) != ErrorMessage(f)
  {
  }

  /** The expiry pattern `^\d{2}\/\d{2}$`: two digits, a slash, two digits,
      and nothing else. The month is not range-checked. */
  predicate ExpiryFormat(s: string)
  {
    |s| == 5 && IsDigit(s[0]) && IsDigit(s[1]) && s[2] == '/' && IsDigit(s[3]) && IsDigit(s[4])
  }

  /** `validateForm`: `None` when every check passes, otherwise the first
      failing check in the order name, card number, expiry, CVV. The name
      must hold a non-whitespace character; the card number must have
      exactly 16 non-whitespace characters, of any kind; the CVV must be
      exactly 3 characters long, of any kind. */
  function ValidateForm(name: string, card: string, expiry: string, cvv: string): (r: Option<FormError>)
    ensures r == None <==>
      !AllWhitespace(name) && CountWhere(card, NotWhitespace) == 16 && ExpiryFormat(expiry) && |cvv| == 3
    ensures r == Some(MissingName) <==> AllWhitespace(name)
    ensures r == Some(BadCardNumber) <==>
      !AllWhitespace(name) && CountWhere(card, NotWhitespace) != 16
    ensures r == Some(BadExpiry) <==>
      !AllWhitespace(name) && CountWhere(card, NotWhitespace) == 16 && !ExpiryFormat(expiry)
    ensures r == Some(BadCvv) <==>
      !AllWhitespace(name) && CountWhere(card, NotWhitespace) == 16 && ExpiryFormat(expiry) && |cvv| != 3
  {
    TrimEmptyIff(name);
    if Trim(name) == [] then Some(MissingName)
    else if |StripWhitespace(card)| != 16 then Some(BadCardNumber)
    else if !ExpiryFormat(expiry) then Some(BadExpiry)
    else if |cvv| != 3 then Some(BadCvv)
    else None
  }

  /** A space and a run without whitespace appended: stripping keeps the
      run whole and drops the space. */
  lemma StripSpaceThen(x: string, g: string)
    requires NoWhitespace(g)
    ensures StripWhitespace(x + " " + g) == StripWhitespace(x) + g
  {
    FilterKeepsAll(g, NotWhitespace);
    FilterAppend(x + " ", g, NotWhitespace);
    FilterAppend(x, " ", NotWhitespace);
    FilterSingleton(' ', NotWhitespace);
  }

  /** Four groups of four digits joined by spaces strip to the sixteen
      digits. The groups are parameters pinned down by the precondition
      rather than literals: the verifier unfolds functions applied to
      literal strings all at once, and naming the groups keeps the proof to
      one group at a time. */
  lemma GroupedCardExample(g: string, h: string)
    requires g == "4111" && h == "1111"
    ensures StripWhitespace(g + " " + h + " " + h + " " + h) == g + h + h + h
  {
    assert NoWhitespace(g) && NoWhitespace(h);
    FilterKeepsAll(g, NotWhitespace);
    StripSpaceThen(g, h);
    StripSpaceThen(g + " " + h, h);
    StripSpaceThen(g + " " + h + " " + h, h);
  }

  /** A run without whitespace counts all its characters. */
  lemma PlainCardCount(c: string)
    requires NoWhitespace(c)
    ensures CountWhere(c, NotWhitespace) == |c|
  {
    FilterKeepsAll(c, NotWhitespace);
  }

  lemma FieldExamples()
    ensures AllWhitespace(" \t")
    ensures ExpiryFormat("13/25") && ExpiryFormat("12/25")
  {
  }

  /** Sixteen digits grouped by spaces pass the card check, and "13/25"
      passes the expiry check, since the month is not range-checked. */
  lemma GroupedCardAccepted(name: string)
    requires !AllWhitespace(name)
    ensures ValidateForm(name, "4111 1111 1111 1111", "13/25", "123") == None
  {
    GroupedCardCount("4111", "1111");
    assert "4111" + " " + "1111" + " " + "1111" + " " + "1111" == "4111 1111 1111 1111";
    FieldExamples();
  }

  /** The grouped example card has sixteen characters that are not
      whitespace (groups as parameters, for the reason given above). */
  lemma GroupedCardCount(g: string, h: string)
    requires g == "4111" && h == "1111"
    ensures CountWhere(g + " " + h + " " + h + " " + h, NotWhitespace) == 16
  {
    GroupedCardExample(g, h);
  }

  /** Twelve digits fail the card check, whatever follows. */
  lemma ShortCardRejected(name: string, expiry: string, cvv: string)
    requires !AllWhitespace(name)
    ensures ValidateForm(name, "411111111111", expiry, cvv) == Some(BadCardNumber)
  {
    ShortCardCount();
  }

  lemma ShortCardCount()
    ensures CountWhere("411111111111", NotWhitespace) == 12
  {
    PlainCardCount("411111111111");
  }

  /** A two-character CVV fails once the other fields pass. */
  lemma ShortCvvRejected(name: string, card: string)
    requires !AllWhitespace(name) && NoWhitespace(card) && |card| == 16
    ensures ValidateForm(name, card, "12/25", "12") == Some(BadCvv)
  {
    PlainCardCount(card);
    FieldExamples();
  }

  /** A name of blanks is missing, whatever the other fields hold. */
  lemma BlankNameRejected(card: string, expiry: string, cvv: string)
    ensures ValidateForm(" \t", card, expiry, cvv) == Some(MissingName)
  {
    FieldExamples();
  }

  /** `cleaned.match(/.{1,4}/g).join(" ")`: groups of four characters,
      the last one to four, joined by single spaces: one space between
      each two groups of four. */
  function Group(c: string): (r: string)
    ensures |r| == if |c| == 0 then 0 else |c| + (|c| - 1) / 4
  {
    if |c| <= 4 then c else c[..4] + " " + Group(c[4..])
  }

  /** The layout of a grouped string, stated by position: position `i` is a
      space exactly when `i % 5 == 4`, and every other position holds
      character `i - i / 5` of `c`; so every group but the last has four
      characters and the last has one to four. */
  lemma {:induction false} GroupShape(c: string)
    ensures forall i :: 0 <= i < |Group(c)| && i % 5 == 4 ==> Group(c)[i] == ' '
    ensures forall i :: 0 <= i < |Group(c)| && i % 5 != 4 ==>
      i - i / 5 < |c| && Group(c)[i] == c[i - i / 5]
  {
    if |c| > 4 {
      var g := Group(c[4..]);
      var r := Group(c);
      GroupShape(c[4..]);
      assert r == c[..4] + " " + g;
      forall i | 5 <= i < |r|
        ensures r[i] == g[i - 5]
        ensures (i - 5) % 5 == i % 5 && (i - 5) / 5 == i / 5 - 1
      {
        Shift(i);
      }
    }
  }

  lemma Shift(i: int)
    requires i >= 5
    ensures (i - 5) % 5 == i % 5 && (i - 5) / 5 == i / 5 - 1
  {
  }

  /** Removing whitespace from the grouped string gives back the groups'
      characters. */
  lemma {:induction false} GroupStripsBack(c: string)
    requires NoWhitespace(c)
    ensures StripWhitespace(Group(c)) == c
  {
    if |c| > 4 {
      GroupStripsBack(c[4..]);
      GroupStripStep(c);
    }
  }

  lemma GroupUnfold(c: string)
    requires |c| > 4
    ensures Group(c) == c[..4] + (" " + Group(c[4..]))
  {
  }

  lemma SpaceThenStrips(g: string, rest: string)
    requires Filter(g, NotWhitespace) == rest
    ensures Filter(" " + g, NotWhitespace) == rest
  {
    FilterAppend(" ", g, NotWhitespace);
    assert Filter(" ", NotWhitespace) == [];
  }

  lemma HeadStrips(head: string)
    requires NoWhitespace(head)
    ensures Filter(head, NotWhitespace) == head
  {
    FilterKeepsAll(head, NotWhitespace);
  }

  /** One group off the front: if the rest strips back, so does the whole. */
  lemma GroupStripStep(c: string)
    requires |c| > 4 && NoWhitespace(c)
    requires StripWhitespace(Group(c[4..])) == c[4..]
    ensures StripWhitespace(Group(c)) == c
  {
    var g := Group(c[4..]);
    var head := c[..4];
    GroupUnfold(c);
    HeadStrips(head);
    SpaceThenStrips(g, c[4..]);
    FilterAppend(head, " " + g, NotWhitespace);
    assert head + c[4..] == c;
  }

  /** `formatCardNumber`: the input with its whitespace removed, grouped in
      fours. Removing whitespace from the result gives the same characters
      as removing it from the input; spaces stand exactly at positions 4, 9,
      14, ..., and every other position holds a character that is not
      whitespace; one space separates each two groups of four, so there is
      no trailing space and 16 non-whitespace characters give 19. */
  function FormatCardNumber(s: string): (r: string)
    ensures StripWhitespace(r) == StripWhitespace(s)
    ensures forall i :: 0 <= i < |r| ==> (r[i] == ' ' <==> i % 5 == 4)
    ensures forall i :: 0 <= i < |r| && i % 5 != 4 ==> !IsWhitespace(r[i])
    ensures var n := |StripWhitespace(s)|; |r| == if n == 0 then 0 else n + (n - 1) / 4
    ensures |StripWhitespace(s)| == 16 ==> |r| == 19
  {
    var c := StripWhitespace(s);
    GroupStripsBack(c);
    GroupShape(c);
    var r := Group(c);
    assert forall i :: 0 <= i < |r| && i % 5 != 4 ==> r[i] == c[i - i / 5] && !IsWhitespace(c[i - i / 5]);
    r
  }

  /** Reformatting a formatted card number changes nothing, so the input
      field is stable under its own normaliser. */
  lemma FormatCardNumberIdempotent(s: string)
    ensures FormatCardNumber(FormatCardNumber(s)) == FormatCardNumber(s)
  {
  }

  /** Formatting keeps the card-number check's verdict. */
  lemma FormatKeepsCardCheck(s: string)
    ensures CountWhere(FormatCardNumber(s), NotWhitespace) == CountWhere(s, NotWhitespace)
  {
  }

  function Min(a: int, b: int): int { if a <= b then a else b }

  /** The layout the expiry input gives a string of digits: with two or
      more, the first two, a slash and the next up to two, so the slash is
      there as soon as two digits are; with fewer, the digits as they are. */
  function ExpiryLayout(d: string): (r: string)
    ensures |d| < 2 ==> r == d
    ensures |d| >= 2 ==> |r| == Min(|d|, 4) + 1 && r[2] == '/' && r[..2] + r[3..] == d[..Min(|d|, 4)]
  {
    if |d| >= 2 then d[..2] + "/" + d[2..Min(|d|, 4)] else d
  }

  lemma ExpiryLayoutShape(d: string)
    requires AllDigits(d)
    ensures |ExpiryLayout(d)| <= 5
    ensures forall i :: 0 <= i < |ExpiryLayout(d)| ==>
      if i == 2 then ExpiryLayout(d)[i] == '/' else IsDigit(ExpiryLayout(d)[i])
    ensures |d| >= 4 ==> ExpiryFormat(ExpiryLayout(d))
    ensures |d| >= 2 ==> |ExpiryLayout(d)| == Min(|d|, 4) + 1 && ExpiryLayout(d)[2] == '/'
  {
  }

  /** Dropping the non-digits of `lo + "/" + hi` drops the slash alone. */
  lemma DigitsAroundSlash(lo: string, hi: string)
    requires AllDigits(lo) && AllDigits(hi)
    ensures DigitsOnly(lo + "/" + hi) == lo + hi
  {
    FilterKeepsAll(lo, IsDigit);
    FilterKeepsAll(hi, IsDigit);
    FilterAppend("/", hi, IsDigit);
    FilterAppend(lo, "/" + hi, IsDigit);
    assert lo + "/" + hi == lo + ("/" + hi);
  }

  lemma ExpiryLayoutDigits(d: string)
    requires AllDigits(d)
    ensures DigitsOnly(ExpiryLayout(d)) == d[..Min(|d|, 4)]
  {
    if |d| >= 2 {
      var lo, hi := d[..2], d[2..Min(|d|, 4)];
      DigitsAroundSlash(lo, hi);
      assert lo + hi == d[..Min(|d|, 4)];
    } else {
      FilterKeepsAll(d, IsDigit);
    }
  }

  /** The expiry input's `onChange`: non-digits are dropped; with two or more
      digits the first two, a slash and the next up to two digits. The result
      is at most five characters, holds a slash at position 2 and digits
      everywhere else, keeps the first four digits of the input in order, and
      matches the expiry pattern once four digits have been typed. The slash
      is present exactly when two or more digits are: two digits give the
      two digits and a trailing slash. */
  function NormalizeExpiry(input: string): (r: string)
    ensures |r| <= 5
    ensures |DigitsOnly(input)| < 2 ==> r == DigitsOnly(input)
    ensures |DigitsOnly(input)| >= 2 ==> |r| == Min(|DigitsOnly(input)|, 4) + 1 && r[2] == '/' 
    ensures forall i :: 0 <= i < |r| ==> if i == 2 then r[i] == '/' else IsDigit(r[i])
    ensures DigitsOnly(r) == DigitsOnly(input)[..Min(|DigitsOnly(input)|, 4)]
    ensures |DigitsOnly(input)| >= 4 ==> ExpiryFormat(r)
  {
    var d := DigitsOnly(input);
    ExpiryLayoutShape(d);
    ExpiryLayoutDigits(d);
    ExpiryLayout(d)
  }

  /** The normalised expiry matches the pattern exactly when at least four
      digits were typed. */
  lemma NormalizedExpiryMatches(input: string)
    ensures ExpiryFormat(NormalizeExpiry(input)) <==> |DigitsOnly(input)| >= 4
  {
  }

  /** An expiry the pattern accepts is left as it is by the normaliser. */
  lemma ExpiryFormatKept(s: string)
    requires ExpiryFormat(s)
    ensures NormalizeExpiry(s) == s
  {
    var lo, hi := s[..2], s[3..];
    assert s == lo + "/" + hi;
    DigitsAroundSlash(lo, hi);
    assert DigitsOnly(s) == lo + hi;
  }

  /** Normalising a normalised expiry changes nothing. */
  lemma NormalizeExpiryIdempotent(input: string)
    ensures NormalizeExpiry(NormalizeExpiry(input)) == NormalizeExpiry(input)
  {
    var d := DigitsOnly(input);
    var r := NormalizeExpiry(input);
    var e := DigitsOnly(r);
    assert e == d[..Min(|d|, 4)];
    if |d| >= 2 {
      assert e[..2] == d[..2];
      assert e[2..Min(|e|, 4)] == d[2..Min(|d|, 4)];
    }
  }

  /** The CVV input's `onChange`: exactly the digits of the input, in order. */
  function NormalizeCvv(input: string): (r: string)
    ensures AllDigits(r) && IsSubseq(r, input)
    ensures |r| == CountWhere(input, IsDigit)
    ensures AllDigits(input) ==> r == input
  {
    if AllDigits(input) then FilterKeepsAll(input, IsDigit); DigitsOnly(input)
    else DigitsOnly(input)
  }

  // ---------------------------------------------------------------------
  // The dialog state

  /** What a completed payment shows on the receipt. The identifiers and the
      date come from randomness and the clock, so they are given, not made. */
  datatype Transaction = Transaction(transactionId: string, gatewayRef: string, paymentDate: string)

  class PaymentForm {
    var cardholderName: string
    var cardNumber: string
    var expiryDate: string
    var cvv: string
    var processing: bool
    var showReceipt: bool
    var transactionData: Option<Transaction>

    /** The receipt is only shown for a transaction that exists. */
    ghost predicate Consistent()
      reads this
    {
      showReceipt ==> transactionData.Some?
    }

    constructor ()
      ensures cardholderName == "" && cardNumber == "" && expiryDate == "" && cvv == ""
      ensures !processing && !showReceipt && transactionData == None
      ensures Consistent()
    {
      cardholderName, cardNumber, expiryDate, cvv := "", "", "", "";
      processing, showReceipt, transactionData := false, false, None;
    }

    method SetCardholderName(value: string)
      modifies this
      ensures cardholderName == value
      ensures cardNumber == old(cardNumber) && expiryDate == old(expiryDate) && cvv == old(cvv)
      ensures processing == old(processing) && showReceipt == old(showReceipt)
      ensures transactionData == old(transactionData)
    {
      cardholderName := value;
    }

    method SetCardNumber(value: string)
      modifies this
      ensures cardNumber == FormatCardNumber(value)
      ensures cardholderName == old(cardholderName) && expiryDate == old(expiryDate) && cvv == old(cvv)
      ensures processing == old(processing) && showReceipt == old(showReceipt)
      ensures transactionData == old(transactionData)
    {
      cardNumber := FormatCardNumber(value);
    }

    method SetExpiryDate(value: string)
      modifies this
      ensures expiryDate == NormalizeExpiry(value)
      ensures cardholderName == old(cardholderName) && cardNumber == old(cardNumber) && cvv == old(cvv)
      ensures processing == old(processing) && showReceipt == old(showReceipt)
      ensures transactionData == old(transactionData)
    {
      expiryDate := NormalizeExpiry(value);
    }

    method SetCvv(value: string)
      modifies this
      ensures cvv == NormalizeCvv(value)
      ensures cardholderName == old(cardholderName) && cardNumber == old(cardNumber)
      ensures expiryDate == old(expiryDate)
      ensures processing == old(processing) && showReceipt == old(showReceipt)
      ensures transactionData == old(transactionData)
    {
      cvv := NormalizeCvv(value);
    }

    /** The synchronous part of `handleSubmit`: on a failed validation it
        reports the first failing check and changes nothing; otherwise it
        marks the form as processing and changes nothing else. No payment is
        reported to the caller at this point in either case. */
    method Submit() returns (error: Option<FormError>)
      modifies this
      ensures error == ValidateForm(cardholderName, cardNumber, expiryDate, cvv)
      ensures processing == (error.None? || old(processing))
      ensures cardholderName == old(cardholderName) && cardNumber == old(cardNumber)
      ensures expiryDate == old(expiryDate) && cvv == old(cvv)
      ensures showReceipt == old(showReceipt) && transactionData == old(transactionData)
    {
      error := ValidateForm(cardholderName, cardNumber, expiryDate, cvv);
      if error.None? {
        processing := true;
      }
    }

    /** The part of `handleSubmit` after the delay: the transaction is
        recorded, processing ends, the receipt is shown, and the caller is
        told the transaction id and gateway reference. */
    method CompletePayment(tx: Transaction) returns (transactionId: string, gatewayRef: string)
      modifies this
      ensures transactionData == Some(tx) && !processing && showReceipt && Consistent()
      ensures transactionId == tx.transactionId && gatewayRef == tx.gatewayRef
      ensures cardholderName == old(cardholderName) && cardNumber == old(cardNumber)
      ensures expiryDate == old(expiryDate) && cvv == old(cvv)
    {
      transactionData := Some(tx);
      processing := false;
      showReceipt := true;
      transactionId, gatewayRef := tx.transactionId, tx.gatewayRef;
    }

    /** `handleClose`: every input back to empty, no processing, no receipt,
        no transaction. */
    method Close()
      modifies this
      ensures cardholderName == "" && cardNumber == "" && expiryDate == "" && cvv == ""
      ensures !processing && !showReceipt && transactionData == None
      ensures Consistent()
    {
      cardholderName, cardNumber, expiryDate, cvv := "", "", "", "";
      processing := false;
      showReceipt := false;
      transactionData := None;
    }
  }
}
