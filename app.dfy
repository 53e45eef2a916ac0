/**
 * The application shell: which pathnames show the navigation bar and the footer.
 * Every route of the router renders the cart drawer; only the pathnames below also
 * get the navigation bar and the footer.
 */
module App {
  import opened Text

  /** The pathnames matched exactly; the last one is the router's pattern text, written out literally. */
  const ValidRoutes: seq<string> := ["/", "/contacto", "/cart", "/addEmployee", "/search", "/register/exito", "/producto/:id"]

  const ProductPrefix: string := "/producto/"

  const ProductSegment: string := "producto"

  predicate AllDigits(s: string)
  {
    forall i :: 0 <= i < |s| ==> IsDigit(s[i])
  }

  /** `/^\/producto\/\d+$/.test(p)`: the prefix, then one or more ASCII digits and nothing else. */
  predicate IsProductPath(p: string)
  {
    StartsWith(p, ProductPrefix) && |p| > |ProductPrefix| && AllDigits(p[|ProductPrefix|..])
  }

  /** `isValidRoute`: the navigation bar and the footer are shown exactly on these pathnames. */
  function IsValidRoute(p: string): (r: bool)
    ensures r <==> p in ValidRoutes || exists id :: id != [] && AllDigits(id) && p == ProductPrefix + id
  {
    if p in ValidRoutes then true
    else
      var r := IsProductPath(p);
      assert r ==> p == ProductPrefix + p[|ProductPrefix|..];
      r
  }

  /** A product page whose identifier is a decimal number shows the navigation bar. */
  lemma ProductPagesShown(id: string)
    requires id != [] && AllDigits(id)
    ensures IsValidRoute(ProductPrefix + id)
  {
  }

  /** The sign-in and sign-up pages, and a product path with a non-numeric identifier, hide it. */
  lemma AuthPagesHidden()
    ensures !IsValidRoute("/log-in")
    ensures !IsValidRoute("/register")
    ensures !IsValidRoute("/producto/abc")
  {
    var abc := "/producto/abc";
    assert abc[|ProductPrefix|] == 'a';
    assert !IsProductPath(abc);
  }

  /** The literal pattern text is shown only because it is in the list: `:id` is not a number. */
  lemma PlaceholderOnlyByList()
    ensures IsValidRoute("/producto/:id")
    ensures !IsProductPath("/producto/:id")
  {
    var placeholder := "/producto/:id";
    assert placeholder[|ProductPrefix|] == ':';
  }

  /**
   * The same test stated on the segments of the pathname: split on `/`, a product path
   * is an empty segment, `producto`, and one non-empty run of digits.
   */
  lemma ProductPathSegments(p: string)
    ensures IsProductPath(p) <==> ProductSegments(Split(p, '/'))
  {
    var parts := Split(p, '/');
    if IsProductPath(p) {
      var id := p[|ProductPrefix|..];
      assert p == ProductPrefix + id;
      ProductPathSplits(p, id);
    }
    if ProductSegments(parts) {
      var id := parts[2];
      assert parts == [[], ProductSegment, id];
      SplitThree(p, '/', [], ProductSegment, id);
      PrefixedIsProductPath(p, id);
    }
  }

  lemma PrefixedIsProductPath(p: string, id: string)
    requires p == [] + ['/'] + ProductSegment + ['/'] + id && id != [] && AllDigits(id)
    ensures IsProductPath(p)
  {
    assert ProductPrefix == ['/'] + ProductSegment + ['/'];
    assert p == ProductPrefix + id;
    assert p[..|ProductPrefix|] == ProductPrefix && p[|ProductPrefix|..] == id;
  }

  /** An empty segment, `producto`, and a non-empty run of digits. */
  predicate ProductSegments(parts: seq<string>)
  {
    |parts| == 3 && parts[0] == [] && parts[1] == ProductSegment && parts[2] != [] && AllDigits(parts[2])
  }

  lemma ProductPathSplits(p: string, id: string)
    requires p == ProductPrefix + id && AllDigits(id)
    ensures Split(p, '/') == [[], ProductSegment, id]
  {
    assert ProductPrefix == ['/'] + ProductSegment + ['/'];
    assert forall k :: 0 <= k < |id| ==> id[k] != '/';
    SplitsInThree(ProductSegment, id, '/');
  }

  /** `c + seg + c + id` splits on `c` into an empty piece, `seg` and `id`. */
  lemma SplitsInThree(seg: string, id: string, c: char)
    requires c !in seg && c !in id
    ensures Split([c] + seg + [c] + id, c) == [[], seg, id]
  {
    assert [c] + seg + [c] + id == [] + [c] + (seg + [c] + id);
    SplitAtFirst([], c, seg + [c] + id);
    SplitAtFirst(seg, c, id);
  }

  /** A string is rebuilt from the three pieces of its split. */
  lemma SplitThree(s: string, c: char, a: string, b: string, d: string)
    requires Split(s, c) == [a, b, d]
    ensures s == a + [c] + b + [c] + d
  {
    assert [a, b, d] == [a] + [b, d] && [b, d] == [b] + [d];
    var rest := SplitCons(s, c, a, [b, d]);
    var tail := SplitCons(rest, c, b, [d]);
    SplitSingle(tail, c);
    assert rest == b + [c] + d;
  }

  /** With two or more pieces, the first piece runs up to the first separator and the rest splits into the others. */
  lemma SplitCons(s: string, c: char, first: string, more: seq<string>) returns (rest: string)
    requires Split(s, c) == [first] + more && more != []
    ensures s == first + [c] + rest && Split(rest, c) == more
  {
    SplitUnfold(s, c);
    rest := s[IndexOf(s, c) + 1..];
    assert Split(s, c)[0] == first && Split(s, c)[1..] == more;
    assert Split(s, c)[1..] == Split(rest, c);
  }

  /** With one piece, that piece is the whole string. */
  lemma SplitSingle(s: string, c: char)
    requires |Split(s, c)| == 1
    ensures Split(s, c) == [s]
  {
    if c in s {
      SplitUnfold(s, c);
    }
  }
}
