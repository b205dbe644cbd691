/** Value objects of the order service: each constructor accepts or refuses, and normalises. */
module OrderValues {
  import opened Results
  import opened Texts
  import opened Int64

  datatype OrderError = ValidationFailed | InvalidIdentifier | OrderNotFound | ConcurrencyConflict | InvalidTransition

  /** UUIDs are opaque; 0 stands for the nil UUID. */
  type OrderId = nat
  type CustomerId = nat
  type Time = nat

  datatype Money = Money(currency: string, minor: int)

  datatype LineItem = LineItem(sku: string, qty: int, price: Money)

  datatype Address = Address(line1: string, line2: string, city: string, region: string, postalCode: string, country: string)

  function NewSku(s: string): (r: Result<string, OrderError>)
    ensures r.Ok? <==> 1 <= |TrimSpace(s)| <= 64
    ensures if r.Ok? then r.value == TrimSpace(s) else r.error == ValidationFailed
    ensures r.Ok? ==> CanonicalSku(r.value)
    ensures r == Ok(s) <==> CanonicalSku(s)
  {
    var t := TrimSpace(s);
    if t == "" || |t| > 64 then Err(ValidationFailed) else Ok(t)
  }

  predicate CanonicalSku(s: string) {
    Trimmed(s) && 1 <= |s| <= 64
  }

  function NewQuantity(v: int): (r: Result<int, OrderError>)
    ensures r.Ok? <==> 1 <= v <= 10_000
    ensures if r.Ok? then r.value == v else r.error == ValidationFailed
  {
    if v <= 0 || v > 10_000 then Err(ValidationFailed) else Ok(v)
  }

  predicate CanonicalMoney(m: Money) {
    Trimmed(m.currency) && NoLower(m.currency) && |m.currency| == 3 && m.minor >= 0
  }

  function NewMoney(currency: string, minor: int): (r: Result<Money, OrderError>)
    ensures r.Ok? <==> |TrimSpace(currency)| == 3 && minor >= 0
    ensures if r.Ok? then r.value.currency == ToUpper(TrimSpace(currency)) && r.value.minor == minor else r.error == ValidationFailed
    ensures r.Ok? ==> CanonicalMoney(r.value)
    ensures r == Ok(Money(currency, minor)) <==> CanonicalMoney(Money(currency, minor))
  {
    var c := ToUpper(TrimSpace(currency));
    if |c| != 3 then Err(ValidationFailed)
    else if minor < 0 then Err(ValidationFailed)
    else Ok(Money(c, minor))
  }

  /** Money.Add, in int64. */
  function Add(a: Money, b: Money): (r: Result<Money, OrderError>)
    ensures r.Ok? <==> a.currency == b.currency
    ensures if r.Ok? then r.value.currency == a.currency else r.error == ValidationFailed
    ensures r.Ok? && -MAX_INT64 - 1 <= a.minor + b.minor <= MAX_INT64 ==> r.value.minor == a.minor + b.minor
  {
    if a.currency != b.currency then Err(ValidationFailed) else Ok(Money(a.currency, Wrap64(a.minor + b.minor)))
  }

  function LineTotal(li: LineItem): Money {
    Money(li.price.currency, Wrap64(li.price.minor * li.qty))
  }

  predicate CanonicalItem(li: LineItem) {
    CanonicalSku(li.sku) && 1 <= li.qty <= 10_000 && CanonicalMoney(li.price)
  }

  predicate CanonicalItems(items: seq<LineItem>) {
    forall i | 0 <= i < |items| :: CanonicalItem(items[i])
  }

  predicate CanonicalAddress(a: Address) {
    && Trimmed(a.line1) && Trimmed(a.line2) && Trimmed(a.city) && Trimmed(a.region) && Trimmed(a.postalCode)
    && a.line1 != "" && a.city != "" && a.postalCode != ""
    && Trimmed(a.country) && NoLower(a.country) && |a.country| == 2
  }

  function NewAddress(a: Address): (r: Result<Address, OrderError>)
    ensures r.Ok? <==>
      && TrimSpace(a.line1) != "" && TrimSpace(a.city) != "" && TrimSpace(a.postalCode) != ""
      && |TrimSpace(a.country)| == 2
    ensures r.Ok? ==> CanonicalAddress(r.value) && r.value.country == ToUpper(TrimSpace(a.country))
    ensures r.Ok? ==> r.value.line1 == TrimSpace(a.line1) && r.value.line2 == TrimSpace(a.line2)
    ensures r.Ok? ==> r.value.city == TrimSpace(a.city) && r.value.region == TrimSpace(a.region) && r.value.postalCode == TrimSpace(a.postalCode)
    ensures r.Err? ==> r.error == ValidationFailed
    ensures r == Ok(a) <==> CanonicalAddress(a)
  {
    if TrimSpace(a.line1) == "" || TrimSpace(a.city) == "" || TrimSpace(a.postalCode) == "" || TrimSpace(a.country) == ""
    then Err(ValidationFailed)
    else
      var country := ToUpper(TrimSpace(a.country));
      if |country| != 2 then Err(ValidationFailed)
      else
        Ok(Address(TrimSpace(a.line1), TrimSpace(a.line2), TrimSpace(a.city),
                   TrimSpace(a.region), TrimSpace(a.postalCode), country))
  }

  function NewIdempotencyKey(s: string): (r: Result<string, OrderError>)
    ensures r.Ok? <==> 8 <= |TrimSpace(s)| <= 128
    ensures if r.Ok? then r.value == TrimSpace(s) else r.error == ValidationFailed
  {
    var t := TrimSpace(s);
    if |t| < 8 || |t| > 128 then Err(ValidationFailed) else Ok(t)
  }

  // ---- totals ----

  /** The mathematical total. */
  function ExactSum(items: seq<LineItem>): int {
    if items == [] then 0
    else
      var n := |items| - 1;
      ExactSum(items[..n]) + items[n].price.minor * items[n].qty
  }

  /** The total as the loop accumulates it, wrapping at every step. */
  function RunningTotal(items: seq<LineItem>): int {
    if items == [] then 0
    else
      var n := |items| - 1;
      Wrap64(RunningTotal(items[..n]) + LineTotal(items[n]).minor)
  }

  lemma WrapAbsorbs(a: int, b: int)
    ensures Wrap64(Wrap64(a) + Wrap64(b)) == Wrap64(a + b)
  {
    var h := MAX_INT64 + 1;
    var ka, kb := (a + h) / TWO_64, (b + h) / TWO_64;
    assert Wrap64(a) == a - ka * TWO_64 && Wrap64(b) == b - kb * TWO_64;
    var n := Wrap64(a) + Wrap64(b);
    assert a + b == n + (ka + kb) * TWO_64;
    WrapShift(n, ka + kb);
  }

  lemma WrapShift(n: int, k: int)
    ensures Wrap64(n + k * TWO_64) == Wrap64(n)
  {
    var m := n + MAX_INT64 + 1;
    var q := m / TWO_64;
    var r := m % TWO_64;
    assert m == q * TWO_64 + r;
    assert m + k * TWO_64 == (q + k) * TWO_64 + r;
    assert (m + k * TWO_64) % TWO_64 == r;
  }

  /** Wrapping at every step is wrapping once at the end. */
  lemma {:induction false} RunningIsWrapped(items: seq<LineItem>)
    ensures RunningTotal(items) == Wrap64(ExactSum(items))
  {
    if items != [] {
      var n := |items| - 1;
      RunningIsWrapped(items[..n]);
      WrapAbsorbs(ExactSum(items[..n]), items[n].price.minor * items[n].qty);
    }
  }

  lemma {:induction false} ExactSumBound(items: seq<LineItem>, cap: int)
    requires cap >= 0 && forall i | 0 <= i < |items| :: 0 <= items[i].price.minor * items[i].qty <= cap
    ensures 0 <= ExactSum(items) <= cap * |items|
  {
    if items != [] { ExactSumBound(items[..|items| - 1], cap); }
  }

  lemma LineBound(li: LineItem, price: int)
    requires 1 <= li.qty <= 10_000 && 0 <= li.price.minor <= price
    ensures 0 <= li.price.minor * li.qty <= price * 10_000
  {
    MulMonotone(li.qty, 10_000, li.price.minor);
  }

  lemma MulMonotone(a: int, b: int, c: int)
    requires 0 <= a <= b && 0 <= c
    ensures 0 <= c * a <= c * b
  {
    assert c * b - c * a == c * (b - a);
  }

  lemma PriceCap(n: int)
    requires n > 0
    ensures var p := MAX_INT64 / (10_000 * n); p >= 0 && p * 10_000 * n <= MAX_INT64
  {
    var d := 10_000 * n;
    var p := MAX_INT64 / d;
    assert p * d + MAX_INT64 % d == MAX_INT64;
    assert p * 10_000 * n == p * d;
  }

  /**
    Exact total: on validated lines the accumulated total is the true sum exactly
    when the true sum fits an int64.
  */
  lemma TotalExactIff(items: seq<LineItem>)
    requires CanonicalItems(items)
    ensures ExactSum(items) >= 0
    ensures RunningTotal(items) == ExactSum(items) <==> ExactSum(items) <= MAX_INT64
  {
    RunningIsWrapped(items);
    forall i | 0 <= i < |items| ensures 0 <= items[i].price.minor * items[i].qty {
      assert CanonicalItem(items[i]);
      LineBound(items[i], items[i].price.minor);
    }
    ExactSumNonNegative(items);
  }

  lemma {:induction false} ExactSumNonNegative(items: seq<LineItem>)
    requires forall i | 0 <= i < |items| :: 0 <= items[i].price.minor * items[i].qty
    ensures ExactSum(items) >= 0
  {
    if items != [] { ExactSumNonNegative(items[..|items| - 1]); }
  }

  /** A bound on the prices that keeps every total of n lines exact. */
  lemma SmallPricesExact(items: seq<LineItem>)
    requires items != [] && CanonicalItems(items)
    requires forall i | 0 <= i < |items| :: items[i].price.minor <= MAX_INT64 / (10_000 * |items|)
    ensures RunningTotal(items) == ExactSum(items) && 0 <= ExactSum(items) <= MAX_INT64
  {
    var n := |items|;
    PriceCap(n);
    var price := MAX_INT64 / (10_000 * n);
    forall i | 0 <= i < n ensures 0 <= items[i].price.minor * items[i].qty <= price * 10_000 {
      assert CanonicalItem(items[i]);
      LineBound(items[i], price);
    }
    ExactSumBound(items, price * 10_000);
    TotalExactIff(items);
  }

  lemma {:induction false} ExactSumTakeOut(items: seq<LineItem>, i: nat)
    requires i < |items|
    ensures ExactSum(items) == ExactSum(items[..i] + items[i + 1..]) + items[i].price.minor * items[i].qty
  {
    var n := |items| - 1;
    var rest := items[..i] + items[i + 1..];
    if i == n {
      assert rest == items[..n];
    } else {
      ExactSumTakeOut(items[..n], i);
      assert rest[..n - 1] == items[..n][..i] + items[..n][i + 1..];
      assert rest[n - 1] == items[n];
    }
  }

  lemma TakeOutMultiset(items: seq<LineItem>, i: nat)
    requires i < |items|
    ensures multiset(items[..i] + items[i + 1..]) == multiset(items) - multiset{items[i]}
  {
    assert items == items[..i] + [items[i]] + items[i + 1..];
  }

  /** The total does not depend on the order of the lines. */
  lemma {:induction false} ExactSumPermutes(a: seq<LineItem>, b: seq<LineItem>)
    requires multiset(a) == multiset(b)
    ensures ExactSum(a) == ExactSum(b)
    decreases |a|
  {
    if a == [] {
      assert |multiset(b)| == 0;
    } else {
      assert a[0] in multiset(b);
      var i :| 0 <= i < |b| && b[i] == a[0];
      TakeOutMultiset(a, 0);
      TakeOutMultiset(b, i);
      ExactSumTakeOut(a, 0);
      ExactSumTakeOut(b, i);
      ExactSumPermutes(a[..0] + a[1..], b[..i] + b[i + 1..]);
    }
  }
}
