/**
  The payment page: the card-number, expiry and CVV input filters, the
  cash change, and the validate / processing / complete flow of the
  confirm button. Amounts are integer cents; a cash amount that does not
  parse is None.
 */
module Payment {
  import opened Text
  import opened Wrappers

  // ---------------------------------------------------------------------
  // Card number
  // ---------------------------------------------------------------------

  /**
    `numbers.replace(/(\d{4})(?=\d)/g, "$1 ")` on a string of digits: a
    space after every full group of four that another digit follows.
   */
  function GroupsOf4(n: string): string
    decreases |n|
  {
    if |n| > 4 then n[..4] + " " + GroupsOf4(n[4..]) else n
  }

  /** `formatCardNumber`. */
  function FormatCardNumber(value: string): string {
    Trim(GroupsOf4(Digits(value)))
  }

  /**
    The layout of the grouping of a digit string: `n + (n - 1) / 4`
    characters, spaces exactly at every fifth position, digits elsewhere.
   */
  lemma {:induction false} GroupsOf4Layout(n: string)
    requires AllDigits(n)
    ensures n == [] ==> GroupsOf4(n) == []
    ensures n != [] ==> |GroupsOf4(n)| == |n| + (|n| - 1) / 4
    ensures forall i :: 0 <= i < |GroupsOf4(n)| ==> (GroupsOf4(n)[i] == ' ' <==> i % 5 == 4)
    ensures forall i :: 0 <= i < |GroupsOf4(n)| ==> GroupsOf4(n)[i] == ' ' || IsDigit(GroupsOf4(n)[i])
  {
    if |n| > 4 {
      var rest := GroupsOf4(n[4..]);
      GroupsOf4Layout(n[4..]);
      var r := n[..4] + " " + rest;
      assert r == GroupsOf4(n);
      assert |r| == 5 + |rest|;
      forall i | 0 <= i < |r|
        ensures (r[i] == ' ' <==> i % 5 == 4) && (r[i] == ' ' || IsDigit(r[i]))
      {
        if i >= 5 {
          assert r[i] == rest[i - 5];
          assert (i - 5) % 5 == i % 5;
        } else if i < 4 {
          assert r[i] == n[i];
        }
      }
    }
  }

  /** The grouping only inserts spaces: its digits are the input. */
  lemma {:induction false} GroupsOf4Digits(n: string)
    requires AllDigits(n)
    ensures Digits(GroupsOf4(n)) == n
  {
    if |n| > 4 {
      var rest := GroupsOf4(n[4..]);
      GroupsOf4Digits(n[4..]);
      DigitsSeparated(n[..4], ' ', rest);
      DigitsOfAllDigits(n[..4]);
      assert n == n[..4] + n[4..];
    } else {
      DigitsOfAllDigits(n);
    }
  }

  /** The last position of a grouping of `m + 1` digits is never a space position. */
  lemma LastPositionNotSpace(m: nat)
    ensures (m + m / 4) % 5 != 4
  {
    var q, r := m / 4, m % 4;
    assert m + m / 4 == 5 * q + r;
  }

  /** Both ends of a non-empty grouping are digits. */
  lemma GroupsOf4Ends(n: string)
    requires AllDigits(n) && n != []
    ensures var g := GroupsOf4(n); g != [] && IsDigit(g[0]) && IsDigit(g[|g| - 1])
  {
    var g := GroupsOf4(n);
    GroupsOf4Layout(n);
    var m := |n| - 1;
    LastPositionNotSpace(m);
    assert |g| - 1 == m + m / 4;
  }

  /**
    The card number as displayed: its digits are exactly the input's digits
    in order, grouped by four with single spaces, with no space at either
    end (so the `trim` removes nothing).
   */
  lemma FormatCardNumberShape(value: string)
    ensures var n, r := Digits(value), FormatCardNumber(value);
            && r == GroupsOf4(n)
            && Digits(r) == n
            && (n != [] ==> |r| == |n| + (|n| - 1) / 4)
            && (forall i :: 0 <= i < |r| ==> (r[i] == ' ' <==> i % 5 == 4))
            && (forall i :: 0 <= i < |r| ==> r[i] == ' ' || IsDigit(r[i]))
            && (r != [] ==> r[0] != ' ' && r[|r| - 1] != ' ')
  {
    var n := Digits(value);
    var g := GroupsOf4(n);
    GroupsOf4Layout(n);
    GroupsOf4Digits(n);
    if n != [] {
      GroupsOf4Ends(n);
    }
    TrimUnchanged(g);
  }

  /** Re-formatting the displayed card number on the next keystroke changes nothing. */
  lemma FormatCardNumberIdempotent(value: string)
    ensures FormatCardNumber(FormatCardNumber(value)) == FormatCardNumber(value)
  {
    FormatCardNumberShape(value);
  }

  // ---------------------------------------------------------------------
  // Expiry
  // ---------------------------------------------------------------------

  function Min(a: int, b: int): int {
    if a < b then a else b
  }

  /** `formatExpiry`: `MM/YY` from the digits, the slash as soon as two digits are in. */
  function FormatExpiry(value: string): string {
    var numbers := Digits(value);
    if |numbers| >= 2 then numbers[..2] + "/" + numbers[2..Min(4, |numbers|)] else numbers
  }

  /**
    Fewer than two digits come back as they are; otherwise the first two,
    a slash, and at most two more. Never longer than five characters, and
    the digits kept are the first four typed.
   */
  lemma FormatExpiryShape(value: string)
    ensures var n, r := Digits(value), FormatExpiry(value);
            && |r| <= 5
            && (|n| < 2 ==> r == n)
            && (|n| >= 2 ==> |r| == Min(4, |n|) + 1 && r[2] == '/')
            && Digits(r) == n[..Min(4, |n|)]
  {
    var n := Digits(value);
    if |n| >= 2 {
      DigitsSeparated(n[..2], '/', n[2..Min(4, |n|)]);
      DigitsOfAllDigits(n[..2]);
      DigitsOfAllDigits(n[2..Min(4, |n|)]);
      assert n[..Min(4, |n|)] == n[..2] + n[2..Min(4, |n|)];
    } else {
      DigitsOfAllDigits(n);
    }
  }

  /** Re-formatting the displayed expiry changes nothing. */
  lemma FormatExpiryIdempotent(value: string)
    ensures FormatExpiry(FormatExpiry(value)) == FormatExpiry(value)
  {
    FormatExpiryShape(value);
    FormatExpiryShape(FormatExpiry(value));
  }

  // ---------------------------------------------------------------------
  // Cash change and validation
  // ---------------------------------------------------------------------

  /** `parseFloat(received) || 0`: an amount that does not parse counts as zero. */
  function ReceivedValue(received: Option<int>): int {
    match received
    case None => 0
    case Some(v) => v
  }

  /** The change stored by `calculateChange`: what was received beyond the total, never negative. */
  function ChangeDue(receivedValue: int, total: int): (change: int)
    ensures change >= 0
    ensures change >= receivedValue - total
    ensures change == 0 || change == receivedValue - total
  {
    var change := receivedValue - total;
    if change > 0 then change else 0
  }

  datatype PaymentMethod = Card | Cash | Pix

  datatype CardData = CardData(number: string, name: string, expiry: string, cvv: string)

  predicate CardComplete(card: CardData) {
    card.number != [] && card.name != [] && card.expiry != [] && card.cvv != []
  }

  datatype PaymentError = MissingCardData | InsufficientAmount

  /**
    The checks of `handlePayment`: a card needs all four fields, cash needs
    at least the total (the exact amount is enough), Pix needs nothing.
   */
  function Validation(m: PaymentMethod, card: CardData, received: Option<int>, total: int): (r: Option<PaymentError>)
    ensures m == Card ==> (r == None <==> CardComplete(card)) && r != Some(InsufficientAmount)
    ensures m == Cash ==> (r == None <==> ReceivedValue(received) >= total) && r != Some(MissingCardData)
    ensures m == Pix ==> r == None
  {
    if m == Card && !CardComplete(card) then Some(MissingCardData)
    else if m == Cash && ReceivedValue(received) < total then Some(InsufficientAmount)
    else None
  }

  // ---------------------------------------------------------------------
  // The page's state
  // ---------------------------------------------------------------------

  class PaymentPage {
    /** The total handed over by checkout. */
    const total: int
    var paymentMethod: PaymentMethod
    var isProcessing: bool
    var paymentComplete: bool
    var card: CardData
    /** `cashData.received`, as parsed. */
    var received: Option<int>
    /** `cashData.change`. */
    var change: int
    /** Whether the last press of the confirm button passed validation. */
    ghost var accepted: bool

    /** Processing and completion only ever follow an accepted payment. */
    ghost predicate Valid()
      reads this
    {
      (isProcessing || paymentComplete) ==> accepted
    }

    constructor (total: int)
      ensures Valid()
      ensures this.total == total
      ensures paymentMethod == Card && !isProcessing && !paymentComplete
      ensures card == CardData([], [], [], []) && received == None && change == 0
    {
      this.total := total;
      paymentMethod := Card;
      isProcessing := false;
      paymentComplete := false;
      card := CardData([], [], [], []);
      received := None;
      change := 0;
      accepted := false;
    }

    method SelectMethod(m: PaymentMethod)
      requires Valid()
      modifies this
      ensures Valid()
      ensures paymentMethod == m
      ensures isProcessing == old(isProcessing) && paymentComplete == old(paymentComplete)
      ensures card == old(card) && received == old(received) && change == old(change)
    {
      paymentMethod := m;
    }

    /** The card-number field's `onChange`. */
    method SetCardNumber(raw: string)
      requires Valid()
      modifies this
      ensures Valid()
      ensures card == old(card).(number := FormatCardNumber(raw))
      ensures paymentMethod == old(paymentMethod) && isProcessing == old(isProcessing)
      ensures paymentComplete == old(paymentComplete) && received == old(received) && change == old(change)
    {
      card := card.(number := FormatCardNumber(raw));
    }

    /** The name field's `onChange`: upper case. */
    method SetCardName(raw: string)
      requires Valid()
      modifies this
      ensures Valid()
      ensures card == old(card).(name := ToUpper(raw))
      ensures paymentMethod == old(paymentMethod) && isProcessing == old(isProcessing)
      ensures paymentComplete == old(paymentComplete) && received == old(received) && change == old(change)
    {
      card := card.(name := ToUpper(raw));
    }

    /** The expiry field's `onChange`. */
    method SetExpiry(raw: string)
      requires Valid()
      modifies this
      ensures Valid()
      ensures card == old(card).(expiry := FormatExpiry(raw))
      ensures paymentMethod == old(paymentMethod) && isProcessing == old(isProcessing)
      ensures paymentComplete == old(paymentComplete) && received == old(received) && change == old(change)
    {
      card := card.(expiry := FormatExpiry(raw));
    }

    /** The CVV field's `onChange`: only the digits are kept. */
    method SetCvv(raw: string)
      requires Valid()
      modifies this
      ensures Valid()
      ensures card == old(card).(cvv := Digits(raw))
      ensures AllDigits(card.cvv) && |card.cvv| <= |raw|
      ensures paymentMethod == old(paymentMethod) && isProcessing == old(isProcessing)
      ensures paymentComplete == old(paymentComplete) && received == old(received) && change == old(change)
    {
      card := card.(cvv := Digits(raw));
    }

    /** `calculateChange`: record the amount and the change it leaves. */
    method CalculateChange(entered: Option<int>)
      requires Valid()
      modifies this
      ensures Valid()
      ensures received == entered
      ensures change == ChangeDue(ReceivedValue(entered), total) && change >= 0
      ensures paymentMethod == old(paymentMethod) && card == old(card)
      ensures isProcessing == old(isProcessing) && paymentComplete == old(paymentComplete)
    {
      received := entered;
      change := ChangeDue(ReceivedValue(entered), total);
    }

    /**
      `handlePayment` up to the timer. The button is disabled while a
      payment is processing and is not shown once it is complete. A
      rejected payment ends with `isProcessing` off again and nothing
      completed; an accepted one is left processing until the timer fires.
     */
    method HandlePayment() returns (rejected: Option<PaymentError>)
      requires Valid() && !isProcessing && !paymentComplete
      modifies this
      ensures Valid()
      ensures rejected == Validation(paymentMethod, card, received, total)
      ensures accepted <==> rejected == None
      ensures isProcessing <==> rejected == None
      ensures !paymentComplete
      ensures paymentMethod == old(paymentMethod) && card == old(card)
      ensures received == old(received) && change == old(change)
    {
      isProcessing := true;
      if paymentMethod == Card {
        if card.number == [] || card.name == [] || card.expiry == [] || card.cvv == [] {
          isProcessing := false;
          accepted := false;
          return Some(MissingCardData);
        }
      }
      if paymentMethod == Cash {
        var receivedValue := ReceivedValue(received);
        if receivedValue < total {
          isProcessing := false;
          accepted := false;
          return Some(InsufficientAmount);
        }
      }
      accepted := true;
      return None;
    }

    /**
      The processing delay ends: one atomic step to the completed state.
      The timer is only set by an accepted payment, so it fires while
      processing.
     */
    method ProcessingElapsed()
      requires Valid() && isProcessing
      modifies this
      ensures Valid() && accepted
      ensures !isProcessing && paymentComplete
      ensures paymentMethod == old(paymentMethod) && card == old(card)
      ensures received == old(received) && change == old(change)
    {
      isProcessing := false;
      paymentComplete := true;
    }
  }

  /**
    A whole cash payment of exactly the total: accepted, processing until
    the timer, then complete, with no change due.
   */
  method ExactCashPayment(total: int) returns (complete: bool, change: int)
    ensures complete && change == 0
  {
    var page := new PaymentPage(total);
    page.SelectMethod(Cash);
    page.CalculateChange(Some(total));
    var rejected := page.HandlePayment();
    assert rejected == None && page.isProcessing && !page.paymentComplete;
    page.ProcessingElapsed();
    return page.paymentComplete, page.change;
  }

  /** A card payment with a field left empty is rejected and never completes. */
  method IncompleteCardPayment(total: int) returns (rejected: Option<PaymentError>, complete: bool)
    ensures rejected == Some(MissingCardData) && !complete
  {
    var page := new PaymentPage(total);
    page.SetCardNumber("4111111111111111");
    page.SetCardName("ANA");
    page.SetExpiry("1230");
    rejected := page.HandlePayment();
    assert page.card.cvv == [];
    return rejected, page.paymentComplete;
  }
}
