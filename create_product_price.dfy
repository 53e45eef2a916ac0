/**
 * The price field of the product form: it keeps only digits and dots, collapses the
 * text to at most one decimal point, and cuts the decimals to two while only one point
 * was typed. Every change is passed on to the form as its `price` field.
 */
module CreateProductPrice {
  import opened Text
  import CreateProduct

  predicate IsPriceChar(c: char)
  {
    IsDigit(c) || c == '.'
  }

  predicate PriceChars(s: string)
  {
    forall i :: 0 <= i < |s| ==> IsPriceChar(s[i])
  }

  /** `value.replace(/[^\d.]/g, '')`: the digits and dots of `value`, in order. */
  function KeepPriceChars(s: string): (r: string)
    ensures |r| <= |s|
    ensures PriceChars(r)
  {
    if s == [] then []
    else if IsPriceChar(s[0]) then [s[0]] + KeepPriceChars(s[1..])
    else KeepPriceChars(s[1..])
  }

  lemma {:induction false} KeepPriceCharsOfPriceChars(s: string)
    requires PriceChars(s)
    ensures KeepPriceChars(s) == s
  {
    if s != [] {
      KeepPriceCharsOfPriceChars(s[1..]);
    }
  }

  /** The filter works character by character: it distributes over concatenation. */
  lemma {:induction false} KeepPriceCharsAppend(a: string, b: string)
    ensures KeepPriceChars(a + b) == KeepPriceChars(a) + KeepPriceChars(b)
  {
    if a != [] {
      assert (a + b)[1..] == a[1..] + b;
      KeepPriceCharsAppend(a[1..], b);
    } else {
      assert a + b == b;
    }
  }

  /** A single character is kept exactly when it is a digit or a dot. */
  lemma KeepPriceCharsSingle(c: char)
    ensures IsPriceChar(c) ==> KeepPriceChars([c]) == [c]
    ensures !IsPriceChar(c) ==> KeepPriceChars([c]) == []
  {
  }

  /** The kept text is exactly the digits and dots of the input, in order. */
  lemma {:induction false} KeepPriceCharsIsFilter(s: string)
    ensures multiset(KeepPriceChars(s)) <= multiset(s)
    ensures forall c :: IsPriceChar(c) ==> multiset(KeepPriceChars(s))[c] == multiset(s)[c]
  {
    if s != [] {
      KeepPriceCharsIsFilter(s[1..]);
      assert s == [s[0]] + s[1..];
    }
  }

  lemma {:induction false} RemoveKeepsPriceChars(s: string, c: char)
    requires PriceChars(s)
    ensures PriceChars(Remove(s, c))
  {
    if s != [] {
      RemoveKeepsPriceChars(s[1..], c);
    }
  }

  /** `formatPrice` */
  function FormatPrice(value: string): (r: string)
    ensures '.' !in KeepPriceChars(value) ==> r == KeepPriceChars(value)
  {
    var numbers := KeepPriceChars(value);
    var parts := Split(numbers, '.');
    if |parts| > 2 then parts[0] + ['.'] + Concat(parts[1..])
    else if |parts| == 2 then parts[0] + ['.'] + Take(parts[1], 2)
    else numbers
  }

  /**
   * With a point in the kept text, the result is the whole part, one point, and then
   * either the first two decimals (one point typed) or every later digit with the
   * extra points dropped (several points typed).
   */
  lemma FormatPriceShape(value: string, whole: string, rest: string)
    requires KeepPriceChars(value) == whole + ['.'] + rest && '.' !in whole
    ensures FormatPrice(value) == whole + ['.'] + Decimals(rest)
  {
    var parts := Split(whole + ['.'] + rest, '.');
    SplitAtFirst(whole, '.', rest);
    assert parts == [whole] + Split(rest, '.');
    assert parts[1..] == Split(rest, '.');
    SplitCount(rest, '.');
    if '.' in rest {
      SplitJoin(rest, '.');
    } else {
      assert Split(rest, '.') == [rest];
    }
  }

  /** The kept text splits at its first point, if it has one. */
  lemma SplitAtPoint(n: string) returns (whole: string, rest: string)
    requires '.' in n
    ensures n == whole + ['.'] + rest && '.' !in whole
  {
    var i := IndexOf(n, '.');
    whole, rest := n[..i], n[i + 1..];
    assert n == n[..i] + [n[i]] + n[i + 1..];
  }

  /** A whole part, one point and point-free decimals make a well-formed price. */
  lemma PointedWellFormed(whole: string, tail: string)
    requires PriceChars(whole) && PriceChars(tail) && '.' !in whole && '.' !in tail
    ensures PriceChars(whole + ['.'] + tail) && Count(whole + ['.'] + tail, '.') == 1
  {
    var r := whole + ['.'] + tail;
    assert forall i :: 0 <= i < |r| ==> r[i] == (if i < |whole| then whole[i] else if i == |whole| then '.' else tail[i - |whole| - 1]);
    CountAppend(whole + ['.'], tail, '.');
    CountAppend(whole, ['.'], '.');
  }

  /** The decimals a formatted price keeps after its first point. */
  function Decimals(rest: string): (tail: string)
    ensures '.' !in tail
  {
    if '.' in rest then Remove(rest, '.') else Take(rest, 2)
  }

  lemma DecimalsWellFormed(rest: string)
    requires PriceChars(rest)
    ensures PriceChars(Decimals(rest))
  {
    if '.' in rest {
      RemoveKeepsPriceChars(rest, '.');
    } else {
      var tail := Take(rest, 2);
      assert forall i :: 0 <= i < |tail| ==> tail[i] == rest[i];
    }
  }

  /** The formatted price holds only digits and at most one point. */
  lemma FormatPriceWellFormed(value: string)
    ensures PriceChars(FormatPrice(value))
    ensures Count(FormatPrice(value), '.') <= 1
  {
    var n := KeepPriceChars(value);
    if '.' in n {
      var whole, rest := SplitAtPoint(n);
      FormatPriceShape(value, whole, rest);
      PiecesArePriceChars(n, whole, rest);
      DecimalsWellFormed(rest);
      PointedWellFormed(whole, Decimals(rest));
    }
  }

  /** The pieces around the first point of the kept text hold only price characters. */
  lemma PiecesArePriceChars(n: string, whole: string, rest: string)
    requires PriceChars(n) && n == whole + ['.'] + rest
    ensures PriceChars(whole) && PriceChars(rest)
  {
    assert forall i :: 0 <= i < |whole| ==> whole[i] == n[i];
    assert forall i :: 0 <= i < |rest| ==> rest[i] == n[|whole| + 1 + i];
  }

  /** A typed or pasted price keeps at most two decimals while it has one point. */
  lemma FormatPriceDecimals(value: string, whole: string, rest: string)
    requires KeepPriceChars(value) == whole + ['.'] + rest && '.' !in whole && '.' !in rest
    ensures FormatPrice(value) == whole + ['.'] + Take(rest, 2)
    ensures |FormatPrice(value)| <= |whole| + 3
  {
    FormatPriceShape(value, whole, rest);
  }

  /** Decimals of at most two digits and no point are kept as they are. */
  lemma ShortDecimalsKept(tail: string)
    requires '.' !in tail && |tail| <= 2
    ensures Decimals(tail) == tail
  {
  }

  /** While at most one point was typed, formatting the formatted price changes nothing. */
  lemma FormatPriceIdempotent(value: string)
    requires Count(KeepPriceChars(value), '.') <= 1
    ensures FormatPrice(FormatPrice(value)) == FormatPrice(value)
  {
    var n := KeepPriceChars(value);
    if '.' in n {
      var whole, rest := SplitAtPoint(n);
      CountAppend(whole + ['.'], rest, '.');
      CountAppend(whole, ['.'], '.');
      FormatPriceDecimals(value, whole, rest);
      var tail := Decimals(rest);
      PiecesArePriceChars(n, whole, rest);
      DecimalsWellFormed(rest);
      PointedWellFormed(whole, tail);
      var r := whole + ['.'] + tail;
      KeepPriceCharsOfPriceChars(r);
      FormatPriceShape(r, whole, tail);
      ShortDecimalsKept(tail);
    } else {
      KeepPriceCharsOfPriceChars(n);
    }
  }

  /** Joining two price strings with a point gives a price string. */
  lemma JoinPriceChars(x: string, y: string)
    requires PriceChars(x) && PriceChars(y)
    ensures PriceChars(x + ['.'] + y)
  {
    var r := x + ['.'] + y;
    assert forall i :: 0 <= i < |r| ==> r[i] == (if i < |x| then x[i] else if i == |x| then '.' else y[i - |x| - 1]);
  }

  lemma RemovePoint(a: string, b: string)
    requires '.' !in a && '.' !in b
    ensures Remove(a + ['.'] + b, '.') == a + b
  {
    var tail := ['.'] + b;
    assert a + ['.'] + b == a + tail;
    RemoveAppend(a, tail, '.');
    RemoveAbsent(a, '.');
    assert tail[0] == '.' && tail[1..] == b;
    assert Remove(tail, '.') == Remove(b, '.');
    RemoveAbsent(b, '.');
  }

  lemma DecimalsAfterSecondPoint(a: string, b: string)
    requires '.' !in a && '.' !in b
    ensures Decimals(a + ['.'] + b) == a + b
  {
    var rest := a + ['.'] + b;
    assert rest[|a|] == '.';
    RemovePoint(a, b);
  }

  /** A second point is dropped and every digit after it kept: `1.2.345` becomes `1.2345`, past two decimals. */
  lemma SecondPointKeepsDecimals(whole: string, a: string, b: string)
    requires PriceChars(whole) && PriceChars(a) && PriceChars(b)
    requires '.' !in whole && '.' !in a && '.' !in b
    ensures FormatPrice(whole + ['.'] + (a + ['.'] + b)) == whole + ['.'] + (a + b)
  {
    var rest := a + ['.'] + b;
    var v := whole + ['.'] + rest;
    JoinPriceChars(a, b);
    JoinPriceChars(whole, rest);
    KeepPriceCharsOfPriceChars(v);
    FormatPriceShape(v, whole, rest);
    DecimalsAfterSecondPoint(a, b);
  }

  /** A typed price with one point keeps only its first two decimals. */
  lemma CutsToTwoDecimals(whole: string, rest: string)
    requires PriceChars(whole + ['.'] + rest) && '.' !in whole && '.' !in rest
    ensures FormatPrice(whole + ['.'] + rest) == whole + ['.'] + Take(rest, 2)
  {
    KeepPriceCharsOfPriceChars(whole + ['.'] + rest);
    FormatPriceDecimals(whole + ['.'] + rest, whole, rest);
  }

  /** Formatting `1.2345` again cuts it to `1.23`, so formatting is not idempotent once a second point was typed. */
  lemma ReformatCutsDecimals()
    ensures FormatPrice("1.2345") == "1.23"
  {
    var whole, rest := "1", "2345";
    assert "1.2345" == whole + ['.'] + rest;
    assert PriceChars(whole + ['.'] + rest);
    CutsToTwoDecimals(whole, rest);
    assert whole + ['.'] + Take(rest, 2) == "1.23";
  }

  /** The price input: its own text, kept in step with the form's value. */
  class PriceInput {
    var price: string
    const form: CreateProduct.ProductForm

    constructor (form: CreateProduct.ProductForm)
      ensures this.form == form && price == form.productPrice
    {
      this.form := form;
      price := form.productPrice;
    }

    /** The effect that copies the form's value into the field whenever it changes. */
    method SyncFromForm()
      modifies this
      ensures price == form.productPrice
    {
      price := form.productPrice;
    }

    /** `handlePriceChange`: format what was typed, show it, and hand it to the form as `price`. */
    method HandlePriceChange(typed: string)
      modifies this`price, form
      ensures price == FormatPrice(typed)
      ensures form.Fields() == old(form.Fields()).(productPrice := price)
      ensures form.errors == old(form.errors) && form.navigations == old(form.navigations)
      ensures form.successMessage == old(form.successMessage) && form.showSuccessMessage == old(form.showSuccessMessage)
    {
      price := FormatPrice(typed);
      form.HandleChange(CreateProduct.Input("price", price));
    }
  }
}
