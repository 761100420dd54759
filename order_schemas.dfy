/**
 * The order request validator (src/schemas/order.schemas.js): the zod object
 * schemas restated as predicates over the parsed request, and the list of
 * issues the validation reports.
 *
 * Numeric fields arrive as text and go through `parseInt`/`parseFloat`; the
 * model receives the outcome of that step: `Some(n)` for a finite number,
 * `None` for NaN or an infinite value (which `z.number()` rejects).
 * Regular expressions are restated as character-class predicates.
 */
module OrderSchemas {
  import opened Outcomes

  // ---------------------------------------------------------------------------
  // Character classes of the schema's regular expressions
  // ---------------------------------------------------------------------------

  /** `\d` (and `[0-9]`) in a JavaScript regular expression without the `u` flag. */
  predicate IsDigit(c: char) {
    '0' <= c <= '9'
  }

  /** `\s` in a JavaScript regular expression: WhiteSpace and LineTerminator.
      `String.prototype.trim` strips exactly the same characters. */
  predicate IsWhitespace(c: char) {
    var n := c as int;
    (0x09 <= n <= 0x0D) || n == 0x20 || n == 0xA0 || n == 0x1680
    || (0x2000 <= n <= 0x200A) || n == 0x2028 || n == 0x2029
    || n == 0x202F || n == 0x205F || n == 0x3000 || n == 0xFEFF
  }

  predicate AllDigits(s: string) {
    forall i | 0 <= i < |s| :: IsDigit(s[i])
  }

  /** A character of the class `[\d\s\+\-\(\)]`. */
  predicate IsPhoneChar(c: char) {
    IsDigit(c) || IsWhitespace(c) || c == '+' || c == '-' || c == '(' || c == ')'
  }

  /** `^\d{12,19}$` */
  predicate CardNumberFormat(s: string) {
    12 <= |s| <= 19 && AllDigits(s)
  }

  /** `^\d{3,4}$` */
  predicate CvvFormat(s: string) {
    3 <= |s| <= 4 && AllDigits(s)
  }

  /** `(0[1-9]|1[0-2])` on two characters. */
  predicate MonthFormat(a: char, b: char) {
    (a == '0' && '1' <= b <= '9') || (a == '1' && '0' <= b <= '2')
  }

  /** `^(0[1-9]|1[0-2])\/?([0-9]{2})$`: a month, an optional slash, two digits. */
  predicate ExpirationFormat(s: string) {
    || (|s| == 4 && MonthFormat(s[0], s[1]) && IsDigit(s[2]) && IsDigit(s[3]))
    || (|s| == 5 && MonthFormat(s[0], s[1]) && s[2] == '/' && IsDigit(s[3]) && IsDigit(s[4]))
  }

  /** `^[\d\s\+\-\(\)]{7,20}$` */
  predicate PhoneFormat(s: string) {
    7 <= |s| <= 20 && forall i | 0 <= i < |s| :: IsPhoneChar(s[i])
  }

  // ---------------------------------------------------------------------------
  // An independent description of the expiration format
  // ---------------------------------------------------------------------------

  function DigitChar(d: nat): char
    requires d < 10
  {
    ('0' as int + d) as char
  }

  /** The two-digit, zero-padded decimal form of `n < 100`. */
  function TwoDigits(n: nat): string
    requires n < 100
  {
    [DigitChar(n / 10), DigitChar(n % 10)]
  }

  function DigitValue(c: char): nat
    requires IsDigit(c)
  {
    c as int - '0' as int
  }

  /** Month and year, each as two digits, with or without a slash between them. */
  function MonthYearText(month: nat, year: nat, slash: bool): string
    requires 1 <= month <= 12 && year < 100
  {
    TwoDigits(month) + (if slash then "/" else "") + TwoDigits(year)
  }

  /** An expiration date written as month 1-12 and year 0-99. */
  ghost predicate IsMonthYear(s: string) {
    exists month: nat, year: nat, slash: bool
      | 1 <= month <= 12 && year < 100 :: s == MonthYearText(month, year, slash)
  }

  lemma DigitRoundTrip(c: char)
    requires IsDigit(c)
    ensures DigitValue(c) < 10 && DigitChar(DigitValue(c)) == c
  {
  }

  lemma TwoDigitsOf(a: nat, b: nat)
    requires a < 10 && b < 10
    ensures TwoDigits(a * 10 + b) == [DigitChar(a), DigitChar(b)]
  {
    assert (a * 10 + b) / 10 == a && (a * 10 + b) % 10 == b;
  }

  /** Every month/year text has the expiration format. */
  lemma MonthYearIsExpirationFormat(month: nat, year: nat, slash: bool)
    requires 1 <= month <= 12 && year < 100
    ensures ExpirationFormat(MonthYearText(month, year, slash))
  {
    var s := MonthYearText(month, year, slash);
    var y := if slash then 3 else 2;
    assert |s| == y + 2;
    assert s[0] == DigitChar(month / 10) && s[1] == DigitChar(month % 10);
    assert s[y] == DigitChar(year / 10) && s[y + 1] == DigitChar(year % 10);
    assert slash ==> s[2] == '/';
    assert MonthFormat(s[0], s[1]) by {
      if month < 10 {
        assert month / 10 == 0 && month % 10 == month;
      } else {
        assert month / 10 == 1 && month % 10 == month - 10;
      }
    }
  }

  /** The character-class predicate accepts exactly the month/year strings. */
  lemma ExpirationFormatIsMonthYear(s: string)
    ensures ExpirationFormat(s) <==> IsMonthYear(s)
  {
    if ExpirationFormat(s) {
      var slash := |s| == 5;
      var y := if slash then 3 else 2;
      DigitRoundTrip(s[0]);
      DigitRoundTrip(s[1]);
      DigitRoundTrip(s[y]);
      DigitRoundTrip(s[y + 1]);
      var month := DigitValue(s[0]) * 10 + DigitValue(s[1]);
      var year := DigitValue(s[y]) * 10 + DigitValue(s[y + 1]);
      TwoDigitsOf(DigitValue(s[0]), DigitValue(s[1]));
      TwoDigitsOf(DigitValue(s[y]), DigitValue(s[y + 1]));
      assert 1 <= month <= 12;
      assert s == MonthYearText(month, year, slash);
    }
    if IsMonthYear(s) {
      var month: nat, year: nat, slash: bool :| 1 <= month <= 12 && year < 100
        && s == MonthYearText(month, year, slash);
      MonthYearIsExpirationFormat(month, year, slash);
    }
  }

  lemma ExpirationExamples()
    ensures ExpirationFormat("12/25") && ExpirationFormat("1225") && ExpirationFormat("01/00")
    ensures !ExpirationFormat("13/25") && !ExpirationFormat("00/25") && !ExpirationFormat("1/25")
    ensures !ExpirationFormat("12-25") && !ExpirationFormat("12/5")
  {
  }

  // ---------------------------------------------------------------------------
  // `.trim()`
  // ---------------------------------------------------------------------------

  /** The index of the first character at or after `from` that is not
      whitespace, or `|s|` when there is none. */
  function SkipLeading(s: string, from: nat): (i: nat)
    requires from <= |s|
    ensures from <= i <= |s|
    ensures forall k | from <= k < i :: IsWhitespace(s[k])
    ensures i < |s| ==> !IsWhitespace(s[i])
    decreases |s| - from
  {
    if from < |s| && IsWhitespace(s[from]) then SkipLeading(s, from + 1) else from
  }

  /** Where `s[lo..hi]` ends once its trailing whitespace is dropped. */
  function SkipTrailing(s: string, lo: nat, hi: nat): (j: nat)
    requires lo <= hi <= |s|
    ensures lo <= j <= hi
    ensures forall k | j <= k < hi :: IsWhitespace(s[k])
    ensures j > lo ==> !IsWhitespace(s[j - 1])
    decreases hi
  {
    if hi > lo && IsWhitespace(s[hi - 1]) then SkipTrailing(s, lo, hi - 1) else hi
  }

  /** `r` is `s` with the first `i` characters and the characters after
      `i + |r|` removed, all of them whitespace. */
  ghost predicate StrippedAt(s: string, r: string, i: int) {
    && 0 <= i <= |s| - |r|
    && r == s[i..i + |r|]
    && (forall k | 0 <= k < i :: IsWhitespace(s[k]))
    && (forall k | i + |r| <= k < |s| :: IsWhitespace(s[k]))
  }

  /** `String.prototype.trim`: drop leading and trailing whitespace. */
  function Trim(s: string): (r: string)
    ensures exists i :: StrippedAt(s, r, i)
    ensures r == [] || (!IsWhitespace(r[0]) && !IsWhitespace(r[|r| - 1]))
  {
    var i := SkipLeading(s, 0);
    var j := SkipTrailing(s, i, |s|);
    assert StrippedAt(s, s[i..j], i);
    s[i..j]
  }

  /** Trimming twice is trimming once. */
  lemma TrimIdempotent(s: string)
    ensures Trim(Trim(s)) == Trim(s)
  {
    var r := Trim(s);
    var i := SkipLeading(r, 0);
    var j := SkipTrailing(r, 0, |r|);
    assert r != [] ==> !IsWhitespace(r[0]) && !IsWhitespace(r[|r| - 1]);
    assert i == 0 && j == |r|;
    assert r[i..j] == r;
  }

  // ---------------------------------------------------------------------------
  // Inputs (after the numeric parse step) and validated outputs
  // ---------------------------------------------------------------------------

  /** One element of `items` as received. */
  datatype RawCartItem = RawCartItem(productId: string, quantity: Option<int>, price: Option<real>)

  datatype CardDetails = CardDetails(cardName: string, cardNumber: string, ccv: string, expirationDate: string)

  datatype ShippingAddress = ShippingAddress(address: string, name: string, phone: string)

  /** `paymentMethod` as received: a `method` tag and whichever sub-objects the
      client sent. */
  datatype RawPayment = RawPayment(
    kind: string,               // the `method` discriminator
    cardDetails: Option<CardDetails>,
    shippingAddress: Option<ShippingAddress>,
    userName: Option<string>)

  datatype RawOrder = RawOrder(
    items: seq<RawCartItem>,
    paymentMethod: RawPayment,
    subTotal: Option<real>,
    iva: Option<real>,
    total: Option<real>,
    totalProducts: Option<real>,
    status: Option<string>)

  datatype Status = Received | Confirmed | Cancelled | Delivered

  /** A line item that passed `cartItemSchema`. */
  datatype CartItem = CartItem(productId: string, quantity: int, price: int)

  /** The discriminated union `paymentMethodSchema`. */
  datatype PaymentMethod =
    | Card(cardDetails: CardDetails, shippingAddress: ShippingAddress)
    | Pickup(userName: string)

  /** An order request that passed `orderSchema`. */
  datatype ValidOrder = ValidOrder(
    items: seq<CartItem>,
    paymentMethod: PaymentMethod,
    subTotal: real,
    iva: real,
    total: real,
    totalProducts: int,
    status: Status)

  // ---------------------------------------------------------------------------
  // Order status names
  // ---------------------------------------------------------------------------

  function StatusName(s: Status): string {
    match s
    case Received => "received"
    case Confirmed => "confirmed"
    case Cancelled => "cancelled"
    case Delivered => "delivered"
  }

  /** Membership in `['received','confirmed','cancelled','delivered']`. */
  function ParseStatus(name: string): (r: Option<Status>)
    ensures r.Some? <==> name in ["received", "confirmed", "cancelled", "delivered"]
    ensures r.Some? ==> StatusName(r.value) == name
  {
    if name == "received" then Some(Received)
    else if name == "confirmed" then Some(Confirmed)
    else if name == "cancelled" then Some(Cancelled)
    else if name == "delivered" then Some(Delivered)
    else None
  }

  lemma StatusNameRoundTrip(s: Status)
    ensures ParseStatus(StatusName(s)) == Some(s)
  {
  }

  // ---------------------------------------------------------------------------
  // Issues
  // ---------------------------------------------------------------------------

  datatype Segment = Key(name: string) | Index(i: nat)

  datatype Problem =
    | TooShort(min: nat)                // `.min(n)` on a string or array
    | TooLong(max: nat)                 // `.max(n)` on a string
    | BadFormat                         // `.regex(...)`
    | Required                          // a sub-object the variant needs is absent
    | NotANumber                        // `z.number()` given NaN or an infinite value
    | NotPositive                       // `.positive()`
    | NotInteger                        // `.int()` given a fraction; aborts the chain
    | BelowMinimum(bound: real)         // `.min(n)` on a number, or `.int()` below the safe range
    | AboveMaximum(bound: real)         // `.int()` above the safe range
    | UnknownMethod                     // no variant of the union has this `method`
    | UnknownStatus                     // not one of the four status names
    | TotalMismatch(calculatedTotal: real, givenTotal: real)
    | TotalProductsMismatch(calculatedProducts: int, givenProducts: real)

  /** One reported issue: where (zod's `path`) and what. */
  datatype Issue = Issue(path: seq<Segment>, problem: Problem)

  /** An issue raised by a single field's schema (not by the cross-field checks). */
  predicate FieldLevel(issue: Issue) {
    !issue.problem.TotalMismatch? && !issue.problem.TotalProductsMismatch?
  }

  predicate AllFieldLevel(issues: seq<Issue>) {
    forall i | 0 <= i < |issues| :: FieldLevel(issues[i])
  }

  function MinLength(path: seq<Segment>, s: string, n: nat): (r: seq<Issue>)
    ensures r == [] <==> |s| >= n
    ensures AllFieldLevel(r)
  {
    if |s| < n then [Issue(path, TooShort(n))] else []
  }

  function MaxLength(path: seq<Segment>, s: string, n: nat): (r: seq<Issue>)
    ensures r == [] <==> |s| <= n
    ensures AllFieldLevel(r)
  {
    if |s| > n then [Issue(path, TooLong(n))] else []
  }

  function Format(path: seq<Segment>, matches: bool): (r: seq<Issue>)
    ensures r == [] <==> matches
    ensures AllFieldLevel(r)
  {
    if matches then [] else [Issue(path, BadFormat)]
  }

  predicate IsInteger(x: real) {
    x == x.Floor as real
  }

  /** `Number.MAX_SAFE_INTEGER`, 2^53 - 1. */
  const MaxSafeInteger: real := 9007199254740991.0

  /** What zod's `.int()` accepts: an integer within the safe range. */
  predicate SafeInteger(x: real) {
    IsInteger(x) && -MaxSafeInteger <= x <= MaxSafeInteger
  }

  /** `z.number()`, then `.min(bound)`. */
  function NumberAtLeast(path: seq<Segment>, x: Option<real>, bound: real): (r: seq<Issue>)
    ensures r == [] <==> x.Some? && x.value >= bound
    ensures AllFieldLevel(r)
  {
    match x
    case None => [Issue(path, NotANumber)]
    case Some(v) => if v < bound then [Issue(path, BelowMinimum(bound))] else []
  }

  /** `z.number().int().min(0)`. A fraction fails `.int()` with an issue that
      aborts the chain, so `.min(0)` is not reached. An integer outside the safe
      range fails `.int()` with an issue that does not abort, and `.min(0)`
      still runs. */
  function NonNegativeInteger(path: seq<Segment>, x: Option<real>): (r: seq<Issue>)
    ensures r == [] <==> x.Some? && SafeInteger(x.value) && x.value >= 0.0
    ensures x.Some? && !IsInteger(x.value) ==> r == [Issue(path, NotInteger)]
    ensures AllFieldLevel(r)
  {
    match x
    case None => [Issue(path, NotANumber)]
    case Some(v) =>
      if !IsInteger(v) then [Issue(path, NotInteger)]
      else
        (if v > MaxSafeInteger then [Issue(path, AboveMaximum(MaxSafeInteger))]
         else if v < -MaxSafeInteger then [Issue(path, BelowMinimum(-MaxSafeInteger))]
         else [])
        + (if v < 0.0 then [Issue(path, BelowMinimum(0.0))] else [])
  }

  // ---------------------------------------------------------------------------
  // cartItemSchema
  // ---------------------------------------------------------------------------

  predicate CartItemAccepted(item: RawCartItem) {
    && |item.productId| >= 1
    && item.quantity.Some? && item.quantity.value > 0
    && item.price.Some? && SafeInteger(item.price.value) && item.price.value >= 0.0
  }

  function CartItemIssues(index: nat, item: RawCartItem): (r: seq<Issue>)
    ensures r == [] <==> CartItemAccepted(item)
    ensures AllFieldLevel(r)
  {
    var at := [Key("items"), Index(index)];
    MinLength(at + [Key("productId")], item.productId, 1)
    + (match item.quantity
       case None => [Issue(at + [Key("quantity")], NotANumber)]
       case Some(q) => if q > 0 then [] else [Issue(at + [Key("quantity")], NotPositive)])
    + NonNegativeInteger(at + [Key("price")], item.price)
  }

  /** The issues of every element, in list order, followed by the array's own `.min(1)`. */
  function ItemsIssues(items: seq<RawCartItem>): (r: seq<Issue>)
    ensures r == [] <==> |items| >= 1 && forall i | 0 <= i < |items| :: CartItemAccepted(items[i])
    ensures AllFieldLevel(r)
  {
    ElementIssues(items, 0) + (if |items| == 0 then [Issue([Key("items")], TooShort(1))] else [])
  }

  /** The issues of the elements from index `from` on, in list order. */
  function ElementIssues(items: seq<RawCartItem>, from: nat): (r: seq<Issue>)
    requires from <= |items|
    ensures r == [] <==> forall i | from <= i < |items| :: CartItemAccepted(items[i])
    ensures AllFieldLevel(r)
    decreases |items| - from
  {
    if from == |items| then []
    else
      var first := CartItemIssues(from, items[from]);
      var rest := ElementIssues(items, from + 1);
      FieldLevelAppend(first, rest);
      assert |first + rest| == |first| + |rest|;
      first + rest
  }

  // ---------------------------------------------------------------------------
  // cardDetailsSchema, shippingAddressSchema, paymentMethodSchema
  // ---------------------------------------------------------------------------

  predicate CardAccepted(c: CardDetails) {
    && |c.cardName| >= 3
    && CardNumberFormat(c.cardNumber)
    && CvvFormat(c.ccv)
    && ExpirationFormat(c.expirationDate)
  }

  function CardDetailsIssues(at: seq<Segment>, c: CardDetails): (r: seq<Issue>)
    ensures r == [] <==> CardAccepted(c)
    ensures AllFieldLevel(r)
  {
    MinLength(at + [Key("cardName")], c.cardName, 3)
    + MinLength(at + [Key("cardNumber")], c.cardNumber, 12)
    + MaxLength(at + [Key("cardNumber")], c.cardNumber, 19)
    + Format(at + [Key("cardNumber")], CardNumberFormat(c.cardNumber))
    + MinLength(at + [Key("ccv")], c.ccv, 3)
    + MaxLength(at + [Key("ccv")], c.ccv, 4)
    + Format(at + [Key("ccv")], CvvFormat(c.ccv))
    + Format(at + [Key("expirationDate")], ExpirationFormat(c.expirationDate))
  }

  predicate AddressAccepted(a: ShippingAddress) {
    |a.address| >= 5 && |a.name| >= 3 && PhoneFormat(a.phone)
  }

  function ShippingAddressIssues(at: seq<Segment>, a: ShippingAddress): (r: seq<Issue>)
    ensures r == [] <==> AddressAccepted(a)
    ensures AllFieldLevel(r)
  {
    MinLength(at + [Key("address")], a.address, 5)
    + MinLength(at + [Key("name")], a.name, 3)
    + MinLength(at + [Key("phone")], a.phone, 7)
    + MaxLength(at + [Key("phone")], a.phone, 20)
    + Format(at + [Key("phone")], PhoneFormat(a.phone))
  }

  /** The payment method has the shape of one variant: a known `method` and the
      sub-objects that variant needs. */
  predicate PaymentShaped(p: RawPayment) {
    || (p.kind == "card" && p.cardDetails.Some? && p.shippingAddress.Some?)
    || (p.kind == "pickup" && p.userName.Some?)
  }

  predicate PaymentAccepted(p: RawPayment) {
    || (p.kind == "card" && p.cardDetails.Some? && p.shippingAddress.Some?
        && CardAccepted(p.cardDetails.value) && AddressAccepted(p.shippingAddress.value))
    || (p.kind == "pickup" && p.userName.Some? && |p.userName.value| >= 3)
  }

  function PaymentIssues(p: RawPayment): (r: seq<Issue>)
    ensures r == [] <==> PaymentAccepted(p)
    ensures AllFieldLevel(r)
  {
    var at := [Key("paymentMethod")];
    if p.kind == "card" then CardPaymentIssues(at, p)
    else if p.kind == "pickup" then
      match p.userName
      case None => [Issue(at + [Key("userName")], Required)]
      case Some(n) => MinLength(at + [Key("userName")], n, 3)
    else
      [Issue(at + [Key("method")], UnknownMethod)]
  }

  /** The `card` variant: both sub-objects are required, and each is checked. */
  function CardPaymentIssues(at: seq<Segment>, p: RawPayment): (r: seq<Issue>)
    ensures r == [] <==> (p.cardDetails.Some? && p.shippingAddress.Some?
                          && CardAccepted(p.cardDetails.value) && AddressAccepted(p.shippingAddress.value))
    ensures AllFieldLevel(r)
  {
    var card := match p.cardDetails
      case None => [Issue(at + [Key("cardDetails")], Required)]
      case Some(c) => CardDetailsIssues(at + [Key("cardDetails")], c);
    var address := match p.shippingAddress
      case None => [Issue(at + [Key("shippingAddress")], Required)]
      case Some(a) => ShippingAddressIssues(at + [Key("shippingAddress")], a);
    FieldLevelAppend(card, address);
    card + address
  }

  /** The validated payment method: the variant's fields, with its strings trimmed. */
  function ParsePayment(p: RawPayment): (r: PaymentMethod)
    requires PaymentAccepted(p)
    ensures r.Card? <==> p.kind == "card"
    ensures r.Pickup? <==> p.kind == "pickup"
    ensures r.Card? ==>
              var c := p.cardDetails.value;
              var a := p.shippingAddress.value;
              && r.cardDetails.cardName == Trim(c.cardName) && r.cardDetails.cardNumber == Trim(c.cardNumber)
              && r.cardDetails.ccv == Trim(c.ccv) && r.cardDetails.expirationDate == Trim(c.expirationDate)
              && r.shippingAddress.address == Trim(a.address) && r.shippingAddress.name == Trim(a.name)
              && r.shippingAddress.phone == Trim(a.phone)
    ensures r.Pickup? ==> r.userName == Trim(p.userName.value)
  {
    if p.kind == "card" then
      var c := p.cardDetails.value;
      var a := p.shippingAddress.value;
      Card(CardDetails(Trim(c.cardName), Trim(c.cardNumber), Trim(c.ccv), Trim(c.expirationDate)),
           ShippingAddress(Trim(a.address), Trim(a.name), Trim(a.phone)))
    else
      Pickup(Trim(p.userName.value))
  }

  // ---------------------------------------------------------------------------
  // orderSchema and its superRefine
  // ---------------------------------------------------------------------------

  /** The left fold `reduce((sum, x) => sum + x, 0)`. */
  function Sum(xs: seq<int>): int {
    if xs == [] then 0 else Sum(xs[..|xs| - 1]) + xs[|xs| - 1]
  }

  function Abs(x: real): real {
    if x < 0.0 then -x else x
  }

  function StatusIssues(status: Option<string>): (r: seq<Issue>)
    ensures r == [] <==> status.None? || ParseStatus(status.value).Some?
    ensures AllFieldLevel(r)
  {
    match status
    case None => []
    case Some(s) => if ParseStatus(s).Some? then [] else [Issue([Key("status")], UnknownStatus)]
  }

  lemma FieldLevelAppend(a: seq<Issue>, b: seq<Issue>)
    requires AllFieldLevel(a) && AllFieldLevel(b)
    ensures AllFieldLevel(a + b)
  {
  }

  /** Every issue of the object's own fields, in the schema's key order. */
  function FieldIssues(o: RawOrder): (r: seq<Issue>)
    ensures r == [] <==> FieldsAccepted(o)
  {
    ItemsIssues(o.items)
    + PaymentIssues(o.paymentMethod)
    + NumberAtLeast([Key("subTotal")], o.subTotal, 0.0)
    + NumberAtLeast([Key("iva")], o.iva, 0.0)
    + NumberAtLeast([Key("total")], o.total, 1.0)
    + NonNegativeInteger([Key("totalProducts")], o.totalProducts)
    + StatusIssues(o.status)
  }

  /** The fields' own schemas never report a cross-field issue. */
  lemma FieldIssuesAreFieldLevel(o: RawOrder)
    ensures AllFieldLevel(FieldIssues(o))
  {
    var items := ItemsIssues(o.items);
    var payment := PaymentIssues(o.paymentMethod);
    var subTotal := NumberAtLeast([Key("subTotal")], o.subTotal, 0.0);
    var iva := NumberAtLeast([Key("iva")], o.iva, 0.0);
    var total := NumberAtLeast([Key("total")], o.total, 1.0);
    var count := NonNegativeInteger([Key("totalProducts")], o.totalProducts);
    var status := StatusIssues(o.status);
    FieldLevelAppend(items, payment);
    FieldLevelAppend(items + payment, subTotal);
    FieldLevelAppend(items + payment + subTotal, iva);
    FieldLevelAppend(items + payment + subTotal + iva, total);
    FieldLevelAppend(items + payment + subTotal + iva + total, count);
    FieldLevelAppend(items + payment + subTotal + iva + total + count, status);
  }

  /** Every field passes its own schema. */
  predicate FieldsAccepted(o: RawOrder) {
    && |o.items| >= 1
    && (forall i | 0 <= i < |o.items| :: CartItemAccepted(o.items[i]))
    && PaymentAccepted(o.paymentMethod)
    && o.subTotal.Some? && o.subTotal.value >= 0.0
    && o.iva.Some? && o.iva.value >= 0.0
    && o.total.Some? && o.total.value >= 1.0
    && o.totalProducts.Some? && SafeInteger(o.totalProducts.value) && o.totalProducts.value >= 0.0
    && (o.status.None? || ParseStatus(o.status.value).Some?)
  }

  /** No field raised an issue that aborts the parse: every number parsed, the
      prices and totalProducts are whole numbers, the payment method has a
      variant's shape and the status is known. Length, range, safe-range and
      format issues do not abort; the refinement still runs after them. */
  predicate Refinable(o: RawOrder) {
    && (forall i | 0 <= i < |o.items| ::
          o.items[i].quantity.Some? && o.items[i].price.Some? && IsInteger(o.items[i].price.value))
    && PaymentShaped(o.paymentMethod)
    && o.subTotal.Some? && o.iva.Some? && o.total.Some?
    && o.totalProducts.Some? && IsInteger(o.totalProducts.value)
    && (o.status.None? || ParseStatus(o.status.value).Some?)
  }

  /** A request whose fields all pass reaches the refinement. */
  lemma AcceptedFieldsAreRefinable(o: RawOrder)
    requires FieldsAccepted(o)
    ensures Refinable(o)
  {
  }

  function Quantities(items: seq<RawCartItem>): (r: seq<int>)
    requires forall i | 0 <= i < |items| :: items[i].quantity.Some?
    ensures |r| == |items| && forall i | 0 <= i < |items| :: r[i] == items[i].quantity.value
  {
    seq(|items|, i requires 0 <= i < |items| => items[i].quantity.value)
  }

  /** `subTotal + iva` equals `total` within 0.01 and the item quantities add up
      to `totalProducts`. */
  predicate TotalsConsistent(o: RawOrder)
    requires Refinable(o)
  {
    && Abs(o.subTotal.value + o.iva.value - o.total.value) <= 0.01
    && Sum(Quantities(o.items)) as real == o.totalProducts.value
  }

  /** The two checks of `superRefine`, independent of each other. */
  function CrossFieldIssues(o: RawOrder): (r: seq<Issue>)
    requires Refinable(o)
    ensures r == [] <==> TotalsConsistent(o)
  {
    var calculatedTotal := o.subTotal.value + o.iva.value;
    var calculatedProducts := Sum(Quantities(o.items));
    (if Abs(calculatedTotal - o.total.value) > 0.01
     then [Issue([Key("total")], TotalMismatch(calculatedTotal, o.total.value))] else [])
    + (if calculatedProducts as real != o.totalProducts.value
       then [Issue([Key("totalProducts")], TotalProductsMismatch(calculatedProducts, o.totalProducts.value))]
       else [])
  }

  /** All issues `orderSchema.parse` reports for a request. */
  function OrderIssues(o: RawOrder): seq<Issue> {
    FieldIssues(o) + (if Refinable(o) then CrossFieldIssues(o) else [])
  }

  /** What an acceptable order request is: every field passes and the totals agree. */
  predicate OrderAccepted(o: RawOrder) {
    FieldsAccepted(o) && Refinable(o) && TotalsConsistent(o)
  }

  /** No issue is reported exactly when the request is acceptable. */
  lemma OrderIssuesEmptyIff(o: RawOrder)
    ensures OrderIssues(o) == [] <==> OrderAccepted(o)
  {
    var f := FieldIssues(o);
    var x := if Refinable(o) then CrossFieldIssues(o) else [];
    assert OrderIssues(o) == f + x;
    assert |f + x| == |f| + |x|;
    if FieldsAccepted(o) {
      AcceptedFieldsAreRefinable(o);
    }
  }

  predicate ReportsTotalMismatch(issues: seq<Issue>) {
    exists i | 0 <= i < |issues| :: issues[i].problem.TotalMismatch?
  }

  predicate ReportsTotalProductsMismatch(issues: seq<Issue>) {
    exists i | 0 <= i < |issues| :: issues[i].problem.TotalProductsMismatch?
  }

  lemma FieldLevelReportsNoMismatch(a: seq<Issue>, b: seq<Issue>)
    requires AllFieldLevel(a)
    ensures ReportsTotalMismatch(a + b) <==> ReportsTotalMismatch(b)
    ensures ReportsTotalProductsMismatch(a + b) <==> ReportsTotalProductsMismatch(b)
  {
    if ReportsTotalMismatch(a + b) {
      var i :| 0 <= i < |a + b| && (a + b)[i].problem.TotalMismatch?;
      assert !FieldLevel((a + b)[i]);
      assert (a + b)[i] == b[i - |a|];
    }
    if ReportsTotalMismatch(b) {
      var i :| 0 <= i < |b| && b[i].problem.TotalMismatch?;
      assert (a + b)[|a| + i] == b[i];
    }
    if ReportsTotalProductsMismatch(a + b) {
      var i :| 0 <= i < |a + b| && (a + b)[i].problem.TotalProductsMismatch?;
      assert !FieldLevel((a + b)[i]);
      assert (a + b)[i] == b[i - |a|];
    }
    if ReportsTotalProductsMismatch(b) {
      var i :| 0 <= i < |b| && b[i].problem.TotalProductsMismatch?;
      assert (a + b)[|a| + i] == b[i];
    }
  }

  /** The two cross-field checks, once the refinement runs: a total issue iff
      `|subTotal + iva - total| > 0.01`, a totalProducts issue iff the item
      quantities do not add up to `totalProducts`, each regardless of the other. */
  lemma CrossFieldChecks(o: RawOrder)
    requires Refinable(o)
    ensures ReportsTotalMismatch(OrderIssues(o))
            <==> Abs(o.subTotal.value + o.iva.value - o.total.value) > 0.01
    ensures ReportsTotalProductsMismatch(OrderIssues(o))
            <==> Sum(Quantities(o.items)) as real != o.totalProducts.value
  {
    var f := FieldIssues(o);
    var c := CrossFieldIssues(o);
    assert OrderIssues(o) == f + c;
    FieldIssuesAreFieldLevel(o);
    FieldLevelReportsNoMismatch(f, c);
    CrossFieldReports(o);
  }

  /** The refinement's own issue list, taken alone. */
  lemma CrossFieldReports(o: RawOrder)
    requires Refinable(o)
    ensures ReportsTotalMismatch(CrossFieldIssues(o))
            <==> Abs(o.subTotal.value + o.iva.value - o.total.value) > 0.01
    ensures ReportsTotalProductsMismatch(CrossFieldIssues(o))
            <==> Sum(Quantities(o.items)) as real != o.totalProducts.value
  {
    var c := CrossFieldIssues(o);
    if Abs(o.subTotal.value + o.iva.value - o.total.value) > 0.01 {
      assert c[0].problem.TotalMismatch?;
    }
    if Sum(Quantities(o.items)) as real != o.totalProducts.value {
      assert c[|c| - 1].problem.TotalProductsMismatch?;
    }
  }

  /** When an aborting issue stops the refinement, the request is rejected and no
      cross-field issue is reported. */
  lemma NoCrossFieldWithoutRefinement(o: RawOrder)
    requires !Refinable(o)
    ensures OrderIssues(o) != []
    ensures !ReportsTotalMismatch(OrderIssues(o)) && !ReportsTotalProductsMismatch(OrderIssues(o))
  {
    assert OrderIssues(o) == FieldIssues(o) + [];
    FieldIssuesAreFieldLevel(o);
    FieldLevelReportsNoMismatch(FieldIssues(o), []);
    if FieldsAccepted(o) {
      AcceptedFieldsAreRefinable(o);
    }
  }

  /** The line items of an accepted request, with their parsed numbers. */
  function ParseItems(items: seq<RawCartItem>): (r: seq<CartItem>)
    requires forall i | 0 <= i < |items| :: CartItemAccepted(items[i])
    ensures |r| == |items|
    ensures forall i | 0 <= i < |items| ::
              && CartItemAccepted(items[i])
              && r[i].productId == items[i].productId
              && r[i].quantity == items[i].quantity.value > 0
              && r[i].price as real == items[i].price.value >= 0.0
  {
    seq(|items|, i requires 0 <= i < |items| && CartItemAccepted(items[i]) =>
          CartItem(items[i].productId, items[i].quantity.value, items[i].price.value.Floor))
  }

  /** The parsed output of an accepted request: items with their numbers, the
      payment variant, the totals and the status (`received` when absent). */
  function ParseOrder(o: RawOrder): (v: ValidOrder)
    requires OrderAccepted(o)
    ensures |v.items| == |o.items|
    ensures forall i | 0 <= i < |o.items| ::
              && v.items[i].productId == o.items[i].productId
              && v.items[i].quantity == o.items[i].quantity.value
              && v.items[i].price as real == o.items[i].price.value
    ensures v.paymentMethod == ParsePayment(o.paymentMethod)
    ensures v.paymentMethod.Card? <==> o.paymentMethod.kind == "card"
    ensures v.subTotal == o.subTotal.value && v.iva == o.iva.value && v.total == o.total.value
    ensures v.totalProducts as real == o.totalProducts.value
    ensures o.status.None? ==> v.status == Received
    ensures o.status.Some? ==> StatusName(v.status) == o.status.value
  {
    var status := if o.status.None? then Received else ParseStatus(o.status.value).value;
    ValidOrder(ParseItems(o.items), ParsePayment(o.paymentMethod),
               o.subTotal.value, o.iva.value, o.total.value, o.totalProducts.value.Floor, status)
  }

  /** What every order that passes validation satisfies: at least one item, each
      with a positive quantity and a non-negative price, non-negative amounts, a
      total of at least 1 that agrees with subTotal plus iva within 0.01, and a
      totalProducts that counts the units ordered. */
  predicate WellFormedOrder(v: ValidOrder) {
    && |v.items| >= 1
    && (forall i | 0 <= i < |v.items| :: v.items[i].quantity > 0 && v.items[i].price >= 0)
    && v.subTotal >= 0.0 && v.iva >= 0.0 && v.total >= 1.0
    && Abs(v.subTotal + v.iva - v.total) <= 0.01
    && v.totalProducts == Sum(ItemQuantities(v.items))
  }

  function ItemQuantities(items: seq<CartItem>): (r: seq<int>)
    ensures |r| == |items| && forall i | 0 <= i < |items| :: r[i] == items[i].quantity
  {
    seq(|items|, i requires 0 <= i < |items| => items[i].quantity)
  }

  /** Validation only lets well-formed orders through. */
  lemma AcceptedOrderIsWellFormed(o: RawOrder)
    requires OrderAccepted(o)
    ensures WellFormedOrder(ParseOrder(o))
  {
    var v := ParseOrder(o);
    assert ItemQuantities(v.items) == Quantities(o.items);
    var count := o.totalProducts.value;
    assert count.Floor == Sum(Quantities(o.items)) by {
      assert IsInteger(count) && Sum(Quantities(o.items)) as real == count;
    }
  }

  /** `orderSchema.parse`: the validated order, or every issue found. */
  function ValidateOrder(o: RawOrder): (r: Result<ValidOrder, seq<Issue>>)
    ensures r.Ok? <==> OrderAccepted(o)
    ensures r.Ok? ==> r.value == ParseOrder(o)
    ensures r.Err? ==> r.error != [] && r.error == OrderIssues(o)
  {
    OrderIssuesEmptyIff(o);
    if OrderIssues(o) != [] then Err(OrderIssues(o)) else Ok(ParseOrder(o))
  }

  // ---------------------------------------------------------------------------
  // Examples
  // ---------------------------------------------------------------------------

  function ExampleOrder(total: real): RawOrder {
    RawOrder(
      [RawCartItem("P1", Some(2), Some(10.0)), RawCartItem("P2", Some(1), Some(5.0))],
      RawPayment("pickup", None, None, Some("Ana Lopez")),
      Some(25.0), Some(4.0), Some(total), Some(3.0), None)
  }

  lemma ExampleQuantities(total: real)
    ensures Quantities(ExampleOrder(total).items) == [2, 1]
    ensures Sum([2, 1]) == 3
  {
    assert [2, 1][..1] == [2];
    assert [2][..0] == [];
  }

  /** Items P1 x2 and P2 x1 with subTotal 25, iva 4, total 29 and totalProducts 3
      are accepted. */
  lemma ExampleAccepted()
    ensures ValidateOrder(ExampleOrder(29.0)).Ok?
  {
    var o := ExampleOrder(29.0);
    ExampleQuantities(29.0);
    assert FieldsAccepted(o);
    assert TotalsConsistent(o);
  }

  /** The same order with total 30 is rejected with exactly one issue, the total's. */
  lemma ExampleTotalRejected()
    ensures OrderIssues(ExampleOrder(30.0)) == [Issue([Key("total")], TotalMismatch(29.0, 30.0))]
  {
    var o := ExampleOrder(30.0);
    ExampleQuantities(30.0);
    assert FieldsAccepted(o);
    assert FieldIssues(o) == [];
    assert CrossFieldIssues(o) == [Issue([Key("total")], TotalMismatch(29.0, 30.0))];
  }

  /** Both cross-field issues can be reported together. */
  lemma BothMismatchesReported()
    ensures var o := ExampleOrder(30.0).(totalProducts := Some(4.0));
            ReportsTotalMismatch(OrderIssues(o)) && ReportsTotalProductsMismatch(OrderIssues(o))
  {
    var o := ExampleOrder(30.0).(totalProducts := Some(4.0));
    ExampleQuantities(30.0);
    assert Quantities(o.items) == [2, 1];
    CrossFieldChecks(o);
  }

  /** An order with no items is always rejected, with the array's `.min(1)` issue. */
  lemma EmptyItemsRejected(o: RawOrder)
    requires o.items == []
    ensures ValidateOrder(o).Err?
    ensures Issue([Key("items")], TooShort(1)) in ValidateOrder(o).error
  {
    assert ItemsIssues(o.items) == [Issue([Key("items")], TooShort(1))];
    assert FieldIssues(o)[0] == Issue([Key("items")], TooShort(1));
  }

  /** A price of 2^53 is a whole number but outside the safe range: `.int()`
      rejects it. */
  lemma UnsafePriceRejected()
    ensures CartItemIssues(0, RawCartItem("P1", Some(1), Some(9007199254740992.0)))
            == [Issue([Key("items"), Index(0), Key("price")], AboveMaximum(MaxSafeInteger))]
  {
    var at := [Key("items"), Index(0)];
    assert (9007199254740992.0).Floor == 9007199254740992;
    assert MinLength(at + [Key("productId")], "P1", 1) == [];
    assert NonNegativeInteger(at + [Key("price")], Some(9007199254740992.0))
           == [Issue(at + [Key("price")], AboveMaximum(MaxSafeInteger))];
    assert at + [Key("price")] == [Key("items"), Index(0), Key("price")];
  }

  /** A fractional totalProducts aborts the parse at `.int()`: only that issue
      is reported for the field, and the refinement does not run. */
  lemma FractionalCountSkipsRefinement()
    ensures var o := ExampleOrder(29.0).(totalProducts := Some(3.5));
            && !Refinable(o)
            && ValidateOrder(o).Err?
            && Issue([Key("totalProducts")], NotInteger) in OrderIssues(o)
            && !ReportsTotalProductsMismatch(OrderIssues(o))
  {
    var o := ExampleOrder(29.0).(totalProducts := Some(3.5));
    assert (3.5).Floor == 3;
    NoCrossFieldWithoutRefinement(o);
    ExampleQuantities(29.0);
    assert FieldsAccepted(ExampleOrder(29.0));
    assert FieldIssues(o) == [Issue([Key("totalProducts")], NotInteger)];
  }

  function ExampleCard(cardName: string): RawPayment {
    RawPayment("card",
      Some(CardDetails(cardName, "123456789012", "123", "12/25")),
      Some(ShippingAddress("Main St 1", "Ana", "5551234")),
      None)
  }

  /** `.min(3)` runs before `.trim()`: the name "  ab" has four characters and
      passes, and the parsed name is "ab". */
  lemma MinLengthBeforeTrim()
    ensures PaymentAccepted(ExampleCard("  ab"))
    ensures ParsePayment(ExampleCard("  ab")).cardDetails.cardName == "ab"
  {
    var p := ExampleCard("  ab");
    assert AllDigits("123456789012");
    assert AllDigits("123");
    assert forall i | 0 <= i < 7 :: IsPhoneChar("5551234"[i]);
    assert ExpirationFormat("12/25");
    var n := "  ab";
    assert SkipLeading(n, 0) == 2 by {
      assert SkipLeading(n, 2) == 2;
    }
    assert SkipTrailing(n, 2, 4) == 4;
    assert n[2..4] == "ab";
  }
}
