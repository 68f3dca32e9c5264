/**
 * The checkout payment form's input formatting: every keystroke in a field passes the
 * field's value through a formatter and the form emits the data with that one field
 * replaced. The card number is grouped in fours, the expiry gets a slash after the
 * month, the security code keeps at most four digits, and the installments select's
 * string value becomes a number.
 */
module PaymentForm {
  import opened Common

  // ---------------------------------------------------------------- string steps

  predicate AllDigits(s: string)
  {
    forall i :: 0 <= i < |s| ==> IsDigit(s[i])
  }

  /** `s.replace(/\s/g, '')`. */
  function StripSpaces(s: string): (r: string)
    ensures |r| <= |s|
    ensures forall i :: 0 <= i < |r| ==> !IsJsSpace(r[i]) && r[i] in s
  {
    if s == [] then []
    else if IsJsSpace(s[0]) then StripSpaces(s[1..])
    else [s[0]] + StripSpaces(s[1..])
  }

  /** `s.replace(/\D/g, '')`. */
  function Digits(s: string): (r: string)
    ensures |r| <= |s| && AllDigits(r)
  {
    if s == [] then []
    else if IsDigit(s[0]) then [s[0]] + Digits(s[1..])
    else Digits(s[1..])
  }

  /**
   * `s.replace(/(\d{4})/g, '$1 ')`: scanning from the left, each run of four digits
   * gets a space after it and the scan resumes behind the run.
   */
  function GroupFours(s: string): (r: string)
    decreases |s|
  {
    if |s| >= 4 && AllDigits(s[..4]) then s[..4] + " " + GroupFours(s[4..])
    else if s == [] then []
    else [s[0]] + GroupFours(s[1..])
  }

  function TrimStart(s: string): (r: string)
    ensures |r| <= |s| && (r != [] ==> !IsJsSpace(r[0]))
  {
    if s != [] && IsJsSpace(s[0]) then TrimStart(s[1..]) else s
  }

  function TrimEnd(s: string): (r: string)
    ensures |r| <= |s| && (r != [] ==> !IsJsSpace(r[|r| - 1]))
  {
    if s != [] && IsJsSpace(s[|s| - 1]) then TrimEnd(s[..|s| - 1]) else s
  }

  /** `s.trim()`. */
  function Trim(s: string): string
  {
    TrimEnd(TrimStart(s))
  }

  /** `s.slice(0, n)`. */
  function Slice(s: string, n: nat): (r: string)
    ensures |r| == Min(|s|, n) && r == s[..|r|]
  {
    s[..Min(|s|, n)]
  }

  // ------------------------------------------------------------------ formatters

  /** The card number field: whitespace removed, a space after each group of four digits, trimmed, at most 19 characters. */
  function FormatCardNumber(value: string): (r: string)
    ensures |r| <= 19
  {
    Slice(Trim(GroupFours(StripSpaces(value))), 19)
  }

  /** The expiry field: digits only, a slash after the first two when there are at least three, at most 7 characters. */
  function FormatExpiry(value: string): (r: string)
    ensures |r| <= 7
  {
    var d := Digits(value);
    Slice(if |d| >= 3 then d[..2] + "/" + d[2..] else d, 7)
  }

  /** The security code field: digits only, at most four of them. */
  function FormatSecurityCode(value: string): (r: string)
    ensures |r| <= 4 && |r| <= |Digits(value)| && AllDigits(r) && r == Digits(value)[..|r|]
    ensures |Digits(value)| >= 4 ==> |r| == 4
  {
    Slice(Digits(value), 4)
  }

  /** A JavaScript number: a finite value or NaN. */
  datatype Num = Finite(value: int) | NaN

  /** The value of a string of decimal digits, read left to right. */
  function DecimalValue(s: string): (n: nat)
    requires AllDigits(s)
  {
    if s == [] then 0 else 10 * DecimalValue(s[..|s| - 1]) + (s[|s| - 1] as int - '0' as int)
  }

  /**
   * `Number(value)` on the strings this form meets: surrounding whitespace is ignored,
   * a blank string is 0, a string of decimal digits is its value, anything else NaN.
   */
  function ToNumber(value: string): (n: Num)
    ensures Trim(value) == [] ==> n == Finite(0)
    ensures Trim(value) != [] && !AllDigits(Trim(value)) ==> n == NaN
  {
    var t := Trim(value);
    if t == [] then Finite(0) else if AllDigits(t) then Finite(DecimalValue(t)) else NaN
  }

  // ------------------------------------------------------------------- the form

  datatype Field = CardNumber | Holder | ExpirationDate | SecurityCode | Brand | Installments

  datatype PaymentData = PaymentData(
    cardNumber: string, holder: string, expirationDate: string, securityCode: string,
    brand: string, installments: Num)

  /**
   * The data the form emits when `field` changes to `value`: that field takes the
   * formatted value (installments its number, holder and brand the value itself), and
   * every other field keeps its value.
   */
  function HandleChange(data: PaymentData, field: Field, value: string): (r: PaymentData)
    ensures field != CardNumber ==> r.cardNumber == data.cardNumber
    ensures field != Holder ==> r.holder == data.holder
    ensures field != ExpirationDate ==> r.expirationDate == data.expirationDate
    ensures field != SecurityCode ==> r.securityCode == data.securityCode
    ensures field != Brand ==> r.brand == data.brand
    ensures field != Installments ==> r.installments == data.installments
    ensures field == Holder ==> r.holder == value
    ensures field == Brand ==> r.brand == value
    ensures field == CardNumber ==> |r.cardNumber| <= 19
    ensures field == ExpirationDate ==> |r.expirationDate| <= 7
    ensures field == SecurityCode ==> |r.securityCode| <= 4 && AllDigits(r.securityCode)
  {
    match field
    case CardNumber => data.(cardNumber := FormatCardNumber(value))
    case Holder => data.(holder := value)
    case ExpirationDate => data.(expirationDate := FormatExpiry(value))
    case SecurityCode => data.(securityCode := FormatSecurityCode(value))
    case Brand => data.(brand := value)
    case Installments => data.(installments := ToNumber(value))
  }

  // ------------------------------------------------------- the card number's shape

  /** The reference layout of a card number: digits in groups of four separated by single spaces. */
  function Spaced(d: string): (r: string)
    ensures |r| == if d == [] then 0 else |d| + (|d| - 1) / 4
    decreases |d|
  {
    if |d| <= 4 then d else d[..4] + " " + Spaced(d[4..])
  }

  /** A space sits exactly at every fifth position of the layout; every other character is one of the digits. */
  lemma {:induction false} SpacedShape(d: string)
    requires AllDigits(d)
    ensures forall i :: 0 <= i < |Spaced(d)| ==> (Spaced(d)[i] == ' ' <==> i % 5 == 4)
    ensures forall i :: 0 <= i < |Spaced(d)| && i % 5 != 4 ==> IsDigit(Spaced(d)[i])
    decreases |d|
  {
    if |d| > 4 {
      SpacedShape(d[4..]);
      var r := Spaced(d);
      var tail := Spaced(d[4..]);
      assert r == d[..4] + " " + tail;
      forall i | 5 <= i < |r| ensures r[i] == tail[i - 5] && (i % 5 == 4 <==> (i - 5) % 5 == 4) {
      }
    }
  }

  lemma {:induction false} StripSpacesConcat(a: string, b: string)
    ensures StripSpaces(a + b) == StripSpaces(a) + StripSpaces(b)
  {
    if a != [] {
      StripSpacesConcat(a[1..], b);
      assert (a + b)[1..] == a[1..] + b;
    } else {
      assert a + b == b;
    }
  }

  lemma {:induction false} StripSpacesOfDigits(d: string)
    requires AllDigits(d)
    ensures StripSpaces(d) == d
  {
    if d != [] {
      StripSpacesOfDigits(d[1..]);
      assert d == [d[0]] + d[1..];
    }
  }

  /** Removing the spaces from the layout gives the digits back. */
  lemma {:induction false} StripSpacedIsDigits(d: string)
    requires AllDigits(d)
    ensures StripSpaces(Spaced(d)) == d
    decreases |d|
  {
    if |d| <= 4 {
      StripSpacesOfDigits(d);
    } else {
      StripSpacedIsDigits(d[4..]);
      StripSpacesConcat(d[..4] + " ", Spaced(d[4..]));
      StripSpacesConcat(d[..4], " ");
      StripSpacesOfDigits(d[..4]);
      assert d == d[..4] + d[4..];
    }
  }

  /** Fewer than four digits are left as they are by the grouping. */
  lemma {:induction false} GroupFoursShort(s: string)
    requires |s| < 4
    ensures GroupFours(s) == s
    decreases |s|
  {
    if s != [] {
      GroupFoursShort(s[1..]);
      assert s == [s[0]] + s[1..];
    }
  }

  /** Trimming the end of a concatenation only trims the second part when something of it stays. */
  lemma {:induction false} TrimEndConcat(a: string, b: string)
    requires TrimEnd(b) != []
    ensures TrimEnd(a + b) == a + TrimEnd(b)
    decreases |b|
  {
    if b != [] && IsJsSpace(b[|b| - 1]) {
      assert (a + b)[..|a + b| - 1] == a + b[..|b| - 1];
      TrimEndConcat(a, b[..|b| - 1]);
    }
  }

  /** On digits, grouping then trimming gives the reference layout. */
  lemma {:induction false} TrimmedGroupsAreSpaced(d: string)
    requires AllDigits(d)
    ensures Trim(GroupFours(d)) == Spaced(d)
    decreases |d|
  {
    GroupedDigitsEnd(d);
    if d != [] {
      var g := GroupFours(d);
      assert g[0] == d[0] by {
        if |d| < 4 { GroupFoursShort(d); }
      }
      assert TrimStart(g) == g;
    }
  }

  lemma {:induction false} GroupedDigitsEnd(d: string)
    requires AllDigits(d)
    ensures TrimEnd(GroupFours(d)) == Spaced(d)
    ensures d != [] ==> GroupFours(d) != [] && GroupFours(d)[0] == d[0]
    decreases |d|
  {
    if |d| < 4 {
      GroupFoursShort(d);
      if d != [] {
        assert !IsJsSpace(d[|d| - 1]);
      }
    } else if |d| == 4 {
      assert d[4..] == [];
      assert GroupFours(d) == d + " ";
      assert (d + " ")[..4] == d;
      assert !IsJsSpace(d[3]);
    } else {
      GroupedDigitsEnd(d[4..]);
      var tail := GroupFours(d[4..]);
      assert TrimEnd(tail) == Spaced(d[4..]) && Spaced(d[4..]) != [];
      TrimEndConcat(d[..4] + " ", tail);
    }
  }

  /** The first 5k - 1 characters of the layout lay out the first 4k digits. */
  lemma {:induction false} SpacedPrefix(d: string, k: nat)
    requires k >= 1 && |d| > 4 * k
    ensures Spaced(d)[..5 * k - 1] == Spaced(d[..4 * k])
    decreases k
  {
    if k > 1 {
      SpacedPrefix(d[4..], k - 1);
      assert d[4..][..4 * (k - 1)] == d[..4 * k][4..];
      assert d[..4 * k][..4] == d[..4];
    } else {
      assert Spaced(d[..4]) == d[..4];
    }
  }

  /**
   * For input made of digits and whitespace, the card number field holds the layout of
   * its first sixteen digits, and removing the spaces from it gives those digits back.
   */
  lemma CardNumberLayout(value: string)
    requires forall i :: 0 <= i < |value| ==> IsDigit(value[i]) || IsJsSpace(value[i])
    ensures var d := StripSpaces(value);
      && AllDigits(d)
      && FormatCardNumber(value) == Spaced(d[..Min(|d|, 16)])
      && StripSpaces(FormatCardNumber(value)) == d[..Min(|d|, 16)]
  {
    var d := StripSpaces(value);
    assert AllDigits(d) by {
      forall i | 0 <= i < |d| ensures IsDigit(d[i]) {
        assert d[i] in value;
      }
    }
    TrimmedGroupsAreSpaced(d);
    SpacedShape(d);
    if |d| > 16 {
      SpacedPrefix(d, 4);
    } else {
      assert d[..|d|] == d;
    }
    StripSpacedIsDigits(d[..Min(|d|, 16)]);
  }

  /** For input made of digits and whitespace, formatting the card number twice changes nothing more. */
  lemma CardNumberIdempotent(value: string)
    requires forall i :: 0 <= i < |value| ==> IsDigit(value[i]) || IsJsSpace(value[i])
    ensures FormatCardNumber(FormatCardNumber(value)) == FormatCardNumber(value)
  {
    CardNumberLayout(value);
    var d := StripSpaces(value);
    var e := d[..Min(|d|, 16)];
    var f := FormatCardNumber(value);
    SpacedShape(e);
    assert forall i :: 0 <= i < |f| ==> IsDigit(f[i]) || IsJsSpace(f[i]);
    CardNumberLayout(f);
    assert e[..|e|] == e;
  }

  // -------------------------------------------------------------- expiry and code

  lemma {:induction false} DigitsConcat(a: string, b: string)
    ensures Digits(a + b) == Digits(a) + Digits(b)
  {
    if a != [] {
      DigitsConcat(a[1..], b);
      assert (a + b)[1..] == a[1..] + b;
    } else {
      assert a + b == b;
    }
  }

  lemma {:induction false} DigitsOfDigits(d: string)
    requires AllDigits(d)
    ensures Digits(d) == d
  {
    if d != [] {
      DigitsOfDigits(d[1..]);
      assert d == [d[0]] + d[1..];
    }
  }

  /**
   * The expiry field holds only digits and at most one slash, at index 2, present
   * exactly when the input has three digits or more; removing the slash gives the
   * input's first six digits (all of them when there are fewer than three).
   */
  lemma ExpiryShape(value: string)
    ensures var d := Digits(value);
      var r := FormatExpiry(value);
      && (forall i :: 0 <= i < |r| ==> (r[i] == '/' <==> i == 2 && |d| >= 3))
      && (forall i :: 0 <= i < |r| && r[i] != '/' ==> IsDigit(r[i]))
      && (|d| >= 3 ==> Digits(r) == d[..Min(|d|, 6)])
      && (|d| < 3 ==> r == d)
  {
    var d := Digits(value);
    if |d| >= 3 {
      var r := FormatExpiry(value);
      var m := Min(|d|, 6);
      assert r == d[..2] + "/" + d[2..m];
      DigitsConcat(d[..2] + "/", d[2..m]);
      DigitsConcat(d[..2], "/");
      DigitsOfDigits(d[..2]);
      DigitsOfDigits(d[2..m]);
      assert d[..m] == d[..2] + d[2..m];
    } else {
      assert d[..|d|] == d;
    }
  }

  /** Formatting the expiry again changes nothing. */
  lemma ExpiryIdempotent(value: string)
    ensures FormatExpiry(FormatExpiry(value)) == FormatExpiry(value)
  {
    ExpiryShape(value);
    var d := Digits(value);
    var r := FormatExpiry(value);
    if |d| >= 3 {
      var e := d[..Min(|d|, 6)];
      assert Digits(r) == e;
      assert e[..2] == d[..2] && e[2..] == d[2..Min(|d|, 6)];
    } else {
      DigitsOfDigits(d);
      assert d[..|d|] == d;
    }
  }

  /** Formatting the security code again changes nothing. */
  lemma SecurityCodeIdempotent(value: string)
    ensures FormatSecurityCode(FormatSecurityCode(value)) == FormatSecurityCode(value)
  {
    var r := FormatSecurityCode(value);
    DigitsOfDigits(r);
    assert r[..|r|] == r;
  }

  // ----------------------------------------------------------------- installments

  lemma {:induction false} NoSpacesInNumerals(n: nat)
    ensures Trim(NatToString(n)) == NatToString(n)
  {
    var s := NatToString(n);
    assert !IsJsSpace(s[0]) && !IsJsSpace(s[|s| - 1]);
  }

  lemma {:induction false} NumeralValue(n: nat)
    ensures AllDigits(NatToString(n)) && DecimalValue(NatToString(n)) == n
  {
    if n >= 10 {
      NumeralValue(n / 10);
      var s := NatToString(n);
      assert s[..|s| - 1] == NatToString(n / 10);
    }
  }

  /** Each installments option, written as its decimal numeral, reads back as that number. */
  lemma InstallmentsRoundTrip(n: nat)
    ensures ToNumber(NatToString(n)) == Finite(n)
  {
    NoSpacesInNumerals(n);
    NumeralValue(n);
  }
}
