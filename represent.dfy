/**
 * How an asset is shown in lists and linked to (asset_AssetRepresent):
 * "number (item, brand)", and a link built from a URL template.
 */
module AssetRepresent {
  import opened Common

  /** Python's `"%s" % x` for a possibly NULL string. */
  function Str(s: Option<string>): string
  {
    if s.Some? then s.value else "None"
  }

  /** Python truthiness of a possibly NULL string. */
  predicate Present(s: Option<string>)
  {
    s.Some? && s.value != ""
  }

  /**
   * represent_row: the asset number with its item and, when there is one,
   * its brand; `default` when the asset has no number.
   */
  function RepresentRow(number: Option<string>, item: Option<string>, brand: Option<string>,
                        default: string): (r: string)
    ensures !Present(number) ==> r == default
    ensures Present(number) ==>
              var n := number.value;
              var it := Str(item);
              var tail := if Present(brand) then ", " + brand.value + ")" else ")";
              && |r| == |n| + 2 + |it| + |tail|
              && r[..|n|] == n
              && r[|n|..|n| + 2] == " ("
              && r[|n| + 2..|n| + 2 + |it|] == it
              && r[|n| + 2 + |it|..] == tail
              && r[|r| - 1] == ')'
  {
    if !Present(number) then default
    else
      var represent := number.value + " (" + Str(item);
      var closed := if Present(brand) then represent + ", " + brand.value + ")" else represent + ")";
      closed
  }

  /** For one number and item, the representation tells whether there is a brand, and which. */
  lemma {:induction false} BrandIsRecoverable(number: string, item: Option<string>,
                                              b1: Option<string>, b2: Option<string>, default: string)
    requires number != ""
    requires RepresentRow(Some(number), item, b1, default) == RepresentRow(Some(number), item, b2, default)
    ensures Present(b1) <==> Present(b2)
    ensures Present(b1) ==> b1.value == b2.value
  {
    var r := RepresentRow(Some(number), item, b1, default);
    var k := |number| + 2 + |Str(item)|;
    var t1 := if Present(b1) then ", " + b1.value + ")" else ")";
    var t2 := if Present(b2) then ", " + b2.value + ")" else ")";
    assert r[k..] == t1 && r[k..] == t2;
    if Present(b1) && Present(b2) {
      assert b1.value == t1[2..|t1| - 1];
      assert b2.value == t2[2..|t2| - 1];
    }
  }

  /** Python's `s.replace(pattern, with)`: every occurrence, left to right, without overlap. */
  function Replace(s: string, pattern: string, with: string): (r: string)
    requires pattern != ""
    // too short to hold the pattern: unchanged; replacing the pattern by itself: unchanged
    ensures |s| < |pattern| ==> r == s
    ensures with == pattern ==> r == s
    decreases |s|
  {
    if |s| < |pattern| then s
    else if s[..|pattern|] == pattern then with + Replace(s[|pattern|..], pattern, with)
    else [s[0]] + Replace(s[1..], pattern, with)
  }

  /** A text without the pattern's first character is left as it is. */
  lemma {:induction false} ReplaceAbsent(s: string, pattern: string, with: string)
    requires pattern != "" && pattern[0] !in s
    ensures Replace(s, pattern, with) == s
    decreases |s|
  {
    if |s| >= |pattern| {
      assert s[..|pattern|][0] == s[0];
      ReplaceAbsent(s[1..], pattern, with);
    }
  }

  /** A prefix without the pattern's first character is copied through. */
  lemma {:induction false} ReplaceSkips(x: string, z: string, pattern: string, with: string)
    requires pattern != "" && pattern[0] !in x
    ensures Replace(x + z, pattern, with) == x + Replace(z, pattern, with)
    decreases |x|
  {
    if x != [] {
      var s := x + z;
      assert s[0] == x[0];
      if |s| >= |pattern| {
        assert s[..|pattern|][0] == x[0];
        assert s[1..] == x[1..] + z;
        ReplaceSkips(x[1..], z, pattern, with);
      } else {
        // too short for the pattern: nothing is replaced
        assert |z| < |pattern|;
      }
    } else {
      assert x + z == z;
    }
  }

  /** The template's placeholder is filled in, and the text on either side is kept. */
  lemma {:induction false} ReplaceOne(x: string, y: string, pattern: string, with: string)
    requires pattern != "" && pattern[0] !in x && pattern[0] !in y
    ensures Replace(x + pattern + y, pattern, with) == x + with + y
  {
    ReplaceSkips(x, pattern + y, pattern, with);
    assert (pattern + y)[..|pattern|] == pattern;
    assert (pattern + y)[|pattern|..] == y;
    ReplaceAbsent(y, pattern, with);
    assert x + pattern + y == x + (pattern + y);
  }

  /** The number a string of decimal digits denotes. */
  function DigitsValue(s: string): nat
    requires forall i :: 0 <= i < |s| ==> '0' <= s[i] <= '9'
  {
    if |s| == 0 then 0 else DigitsValue(s[..|s| - 1]) * 10 + (s[|s| - 1] - '0') as nat
  }

  /** The decimal digits of a record key (s3_str of an integer); they denote the key. */
  function DecimalString(n: nat): (r: string)
    ensures |r| > 0
    ensures forall i :: 0 <= i < |r| ==> '0' <= r[i] <= '9'
    ensures DigitsValue(r) == n
    decreases n
  {
    var digit := ['0' + (n % 10) as char];
    if n < 10 then digit
    else
      var r := DecimalString(n / 10) + digit;
      assert r[..|r| - 1] == DecimalString(n / 10);
      r
  }

  /** Where a link goes. */
  datatype Target =
    | VehiclePage(key: nat)      // the vehicle controller's page of the record
    | Url(url: string)

  /** A hyperlink and the text it shows. */
  datatype Link = Link(text: string, target: Target)

  /**
   * link: a vehicle (type 1) links to its vehicle page; any other asset to
   * `linkto` with both spellings of the "[id]" placeholder replaced by the key.
   */
  function AssetLink(key: nat, text: string, rowType: Option<int>, linkto: string): (r: Link)
    ensures r.text == text
    ensures rowType == Some(1) ==> r.target == VehiclePage(key)
    ensures rowType != Some(1) ==>
              r.target == Url(Replace(Replace(linkto, "[id]", DecimalString(key)), "%5Bid%5D", DecimalString(key)))
  {
    if rowType == Some(1) then Link(text, VehiclePage(key))
    else
      var k := DecimalString(key);
      Link(text, Url(Replace(Replace(linkto, "[id]", k), "%5Bid%5D", k)))
  }

  /** A template with a "[id]" placeholder gets the key in its place. */
  lemma PlainPlaceholderIsFilled(x: string, y: string, key: nat, text: string, rowType: Option<int>)
    requires rowType != Some(1)
    requires '[' !in x + y && '%' !in x + y
    ensures AssetLink(key, text, rowType, x + "[id]" + y).target == Url(x + DecimalString(key) + y)
  {
    var k := DecimalString(key);
    assert forall c :: c in x + y <==> c in x || c in y;
    ReplaceOne(x, y, "[id]", k);
    assert '%' !in k by {
      forall i | 0 <= i < |k| ensures k[i] != '%' { }
    }
    assert forall c :: c in x + k + y <==> c in x || c in k || c in y;
    ReplaceAbsent(x + k + y, "%5Bid%5D", k);
  }

  /** A template with the URL-encoded "%5Bid%5D" placeholder gets the key in its place. */
  lemma EncodedPlaceholderIsFilled(x: string, y: string, key: nat, text: string, rowType: Option<int>)
    requires rowType != Some(1)
    requires '[' !in x + y && '%' !in x + y
    ensures AssetLink(key, text, rowType, x + "%5Bid%5D" + y).target == Url(x + DecimalString(key) + y)
  {
    var k := DecimalString(key);
    var t := x + "%5Bid%5D" + y;
    assert forall c :: c in x + y <==> c in x || c in y;
    assert forall c :: c in t <==> c in x || c in "%5Bid%5D" || c in y;
    assert '[' !in "%5Bid%5D";
    ReplaceAbsent(t, "[id]", k);
    ReplaceOne(x, y, "%5Bid%5D", k);
  }

  /** Filling the same template with two keys gives two links: the link identifies the record. */
  lemma {:induction false} LinkIdentifiesRecord(x: string, y: string, m: nat, n: nat, text: string,
                                                rowType: Option<int>)
    requires rowType != Some(1)
    requires '[' !in x + y && '%' !in x + y
    requires AssetLink(m, text, rowType, x + "[id]" + y) == AssetLink(n, text, rowType, x + "[id]" + y)
    ensures m == n
  {
    PlainPlaceholderIsFilled(x, y, m, text, rowType);
    PlainPlaceholderIsFilled(x, y, n, text, rowType);
    var km, kn := DecimalString(m), DecimalString(n);
    var u := x + km + y;
    assert u == x + kn + y;
    assert |km| == |kn|;
    assert km == u[|x|..|x| + |km|];
    assert kn == (x + kn + y)[|x|..|x| + |kn|];
  }
}
