/** The pure helpers of `src/utils/helpers.js`: category names, stock status,
    input validation, phone and address formatting, and the price arithmetic. */
module Helpers {
  import opened Wrappers
  import opened Text
  import Seqs
  import JsValue

  /** USD to INR conversion rate. */
  const UsdToInr: real := 83.12
  /** Default GST rate (18%). */
  const GstRate: real := 0.18

  // ----- categories -----

  /** One dash-separated word of a category code, as displayed. */
  function FormatWord(word: string): string {
    if word == "mens" then "Men's"
    else if word == "womens" then "Women's"
    else if word == "" then ""
    else [ToUpperChar(word[0])] + word[1..]
  }

  function FormatWords(words: seq<string>): (r: seq<string>)
    ensures |r| == |words|
    ensures forall i :: 0 <= i < |words| ==> r[i] == FormatWord(words[i])
  {
    seq(|words|, i requires 0 <= i < |words| => FormatWord(words[i]))
  }

  /** `formatCategoryName`: an empty code reads "Uncategorized"; otherwise each
      dash-separated word is displayed and the words are joined by spaces. */
  function FormatCategoryName(category: string): (r: string)
    ensures category == "" ==> r == "Uncategorized"
    ensures r != ""
  {
    if category == "" then "Uncategorized"
    else
      SplitSinglePiece(category, '-');
      Join(FormatWords(Split(category, '-')), " ")
  }

  lemma {:induction false} SplitPiecesComeFromInput(s: string, sep: char, c: char)
    requires c != sep && c !in s
    ensures forall i :: 0 <= i < |Split(s, sep)| ==> c !in Split(s, sep)[i]
  {
    if s != [] {
      SplitPiecesComeFromInput(s[1..], sep, c);
    }
  }

  /** Formatting a category keeps its words: splitting the display name on
      spaces gives back one displayed word per dash-separated input word. */
  lemma FormatCategoryNameKeepsWords(category: string)
    requires category != "" && ' ' !in category
    ensures Split(FormatCategoryName(category), ' ') == FormatWords(Split(category, '-'))
    ensures |Split(FormatCategoryName(category), ' ')| == |Split(category, '-')|
  {
    var words := Split(category, '-');
    SplitPiecesComeFromInput(category, '-', ' ');
    var shown := FormatWords(words);
    forall i | 0 <= i < |shown| ensures ' ' !in shown[i] {
      var w := words[i];
      if w != "mens" && w != "womens" && w != "" {
        assert shown[i] == [ToUpperChar(w[0])] + w[1..];
        assert w == [w[0]] + w[1..];
      }
    }
    SplitJoin(shown, ' ');
  }

  /** A two-word code is displayed as its two displayed words. */
  lemma FormatTwoWordCategory(a: string, b: string)
    requires a != "" && '-' !in a && '-' !in b
    ensures FormatCategoryName(a + "-" + b) == FormatWord(a) + " " + FormatWord(b)
  {
    SplitAtFirstSeparator(a, '-', b);
    SplitNoSeparator(b, '-');
    assert a + "-" + b == a + ['-'] + b;
    var words := Split(a + "-" + b, '-');
    assert words == [a, b];
    var shown := FormatWords(words);
    assert shown == [FormatWord(a), FormatWord(b)];
    assert shown[1..] == [FormatWord(b)];
    assert Join(shown, " ") == FormatWord(a) + " " + Join(shown[1..], " ");
  }

  /** A code without a dash is displayed as its one displayed word. */
  lemma FormatOneWordCategory(a: string)
    requires a != "" && '-' !in a
    ensures FormatCategoryName(a) == FormatWord(a)
  {
    SplitNoSeparator(a, '-');
    assert FormatWords([a]) == [FormatWord(a)];
  }


  /** The display names of the known category codes. */
  const CategoryNames: map<string, string> := map[
    "beauty" := "Beauty",
    "fragrances" := "Fragrances",
    "furniture" := "Furniture",
    "groceries" := "Groceries",
    "home-decoration" := "Home Decoration",
    "kitchen-accessories" := "Kitchen Accessories",
    "laptops" := "Laptops",
    "mens-shirts" := "Men's Shirts",
    "mens-shoes" := "Men's Shoes",
    "mens-watches" := "Men's Watches",
    "mobile-accessories" := "Mobile Accessories",
    "motorcycle" := "Motorcycle",
    "skin-care" := "Skin Care",
    "smartphones" := "Smartphones",
    "sports-accessories" := "Sports Accessories",
    "sunglasses" := "Sunglasses",
    "tablets" := "Tablets",
    "tops" := "Tops",
    "vehicle" := "Vehicle",
    "womens-bags" := "Women's Bags",
    "womens-dresses" := "Women's Dresses",
    "womens-jewellery" := "Women's Jewellery",
    "womens-shoes" := "Women's Shoes",
    "womens-watches" := "Women's Watches"
  ]

  /** `getCategoryDisplayName`: the table's name for a known code, otherwise the
      formatted code. */
  function GetCategoryDisplayName(category: string): (r: string)
    ensures category in CategoryNames ==> r == CategoryNames[category]
    ensures r == FormatCategoryName(category)
  {
    TableIsFormatted(category);
    if category in CategoryNames && CategoryNames[category] != "" then CategoryNames[category]
    else FormatCategoryName(category)
  }

  /** The table adds nothing the formatter would not produce: every known
      code's display name is its formatted code. */
  lemma TableIsFormatted(code: string)
    ensures code in CategoryNames ==> CategoryNames[code] == FormatCategoryName(code)
  {
    if code == "beauty" {
      EntryBeauty(code);
    } else if code == "fragrances" {
      EntryFragrances(code);
    } else if code == "furniture" {
      EntryFurniture(code);
    } else if code == "groceries" {
      EntryGroceries(code);
    } else if code == "home-decoration" {
      EntryHomeDecoration(code);
    } else if code == "kitchen-accessories" {
      EntryKitchenAccessories(code);
    } else if code == "laptops" {
      EntryLaptops(code);
    } else if code == "mens-shirts" {
      EntryMensShirts(code);
    } else if code == "mens-shoes" {
      EntryMensShoes(code);
    } else if code == "mens-watches" {
      EntryMensWatches(code);
    } else if code == "mobile-accessories" {
      EntryMobileAccessories(code);
    } else if code == "motorcycle" {
      EntryMotorcycle(code);
    } else if code == "skin-care" {
      EntrySkinCare(code);
    } else if code == "smartphones" {
      EntrySmartphones(code);
    } else if code == "sports-accessories" {
      EntrySportsAccessories(code);
    } else if code == "sunglasses" {
      EntrySunglasses(code);
    } else if code == "tablets" {
      EntryTablets(code);
    } else if code == "tops" {
      EntryTops(code);
    } else if code == "vehicle" {
      EntryVehicle(code);
    } else if code == "womens-bags" {
      EntryWomensBags(code);
    } else if code == "womens-dresses" {
      EntryWomensDresses(code);
    } else if code == "womens-jewellery" {
      EntryWomensJewellery(code);
    } else if code == "womens-shoes" {
      EntryWomensShoes(code);
    } else if code == "womens-watches" {
      EntryWomensWatches(code);
    }
  }

  /** A one-word code is listed under its displayed word. */
  lemma OneWordEntry(code: string, shown: string)
    requires code in CategoryNames && CategoryNames[code] == shown
    requires code != "" && '-' !in code && FormatWord(code) == shown
    ensures CategoryNames[code] == FormatCategoryName(code)
  {
    FormatOneWordCategory(code);
  }

  /** A two-word code is listed under its two displayed words. */
  lemma TwoWordEntry(code: string, a: string, b: string, x: string, y: string)
    requires code == a + "-" + b && code in CategoryNames && CategoryNames[code] == x + " " + y
    requires a != "" && '-' !in a && '-' !in b
    requires FormatWord(a) == x && FormatWord(b) == y
    ensures CategoryNames[code] == FormatCategoryName(code)
  {
    FormatTwoWordCategory(a, b);
  }

  // One lemma per row of the table, each proved on its own.

  lemma EntryBeauty(code: string)
    requires code == "beauty"
    ensures code in CategoryNames && CategoryNames[code] == FormatCategoryName(code)
  {
    OneWordEntry(code, "Beauty");
  }

  lemma EntryFragrances(code: string)
    requires code == "fragrances"
    ensures code in CategoryNames && CategoryNames[code] == FormatCategoryName(code)
  {
    OneWordEntry(code, "Fragrances");
  }

  lemma EntryFurniture(code: string)
    requires code == "furniture"
    ensures code in CategoryNames && CategoryNames[code] == FormatCategoryName(code)
  {
    OneWordEntry(code, "Furniture");
  }

  lemma EntryGroceries(code: string)
    requires code == "groceries"
    ensures code in CategoryNames && CategoryNames[code] == FormatCategoryName(code)
  {
    OneWordEntry(code, "Groceries");
  }

  lemma EntryHomeDecoration(code: string)
    requires code == "home-decoration"
    ensures code in CategoryNames && CategoryNames[code] == FormatCategoryName(code)
  {
    TwoWordEntry(code, "home", "decoration", "Home", "Decoration");
  }

  lemma EntryKitchenAccessories(code: string)
    requires code == "kitchen-accessories"
    ensures code in CategoryNames && CategoryNames[code] == FormatCategoryName(code)
  {
    TwoWordEntry(code, "kitchen", "accessories", "Kitchen", "Accessories");
  }

  lemma EntryLaptops(code: string)
    requires code == "laptops"
    ensures code in CategoryNames && CategoryNames[code] == FormatCategoryName(code)
  {
    OneWordEntry(code, "Laptops");
  }

  lemma EntryMensShirts(code: string)
    requires code == "mens-shirts"
    ensures code in CategoryNames && CategoryNames[code] == FormatCategoryName(code)
  {
    TwoWordEntry(code, "mens", "shirts", "Men's", "Shirts");
  }

  lemma EntryMensShoes(code: string)
    requires code == "mens-shoes"
    ensures code in CategoryNames && CategoryNames[code] == FormatCategoryName(code)
  {
    TwoWordEntry(code, "mens", "shoes", "Men's", "Shoes");
  }

  lemma EntryMensWatches(code: string)
    requires code == "mens-watches"
    ensures code in CategoryNames && CategoryNames[code] == FormatCategoryName(code)
  {
    TwoWordEntry(code, "mens", "watches", "Men's", "Watches");
  }

  lemma EntryMobileAccessories(code: string)
    requires code == "mobile-accessories"
    ensures code in CategoryNames && CategoryNames[code] == FormatCategoryName(code)
  {
    TwoWordEntry(code, "mobile", "accessories", "Mobile", "Accessories");
  }

  lemma EntryMotorcycle(code: string)
    requires code == "motorcycle"
    ensures code in CategoryNames && CategoryNames[code] == FormatCategoryName(code)
  {
    OneWordEntry(code, "Motorcycle");
  }

  lemma EntrySkinCare(code: string)
    requires code == "skin-care"
    ensures code in CategoryNames && CategoryNames[code] == FormatCategoryName(code)
  {
    TwoWordEntry(code, "skin", "care", "Skin", "Care");
  }

  lemma EntrySmartphones(code: string)
    requires code == "smartphones"
    ensures code in CategoryNames && CategoryNames[code] == FormatCategoryName(code)
  {
    OneWordEntry(code, "Smartphones");
  }

  lemma EntrySportsAccessories(code: string)
    requires code == "sports-accessories"
    ensures code in CategoryNames && CategoryNames[code] == FormatCategoryName(code)
  {
    TwoWordEntry(code, "sports", "accessories", "Sports", "Accessories");
  }

  lemma EntrySunglasses(code: string)
    requires code == "sunglasses"
    ensures code in CategoryNames && CategoryNames[code] == FormatCategoryName(code)
  {
    OneWordEntry(code, "Sunglasses");
  }

  lemma EntryTablets(code: string)
    requires code == "tablets"
    ensures code in CategoryNames && CategoryNames[code] == FormatCategoryName(code)
  {
    OneWordEntry(code, "Tablets");
  }

  lemma EntryTops(code: string)
    requires code == "tops"
    ensures code in CategoryNames && CategoryNames[code] == FormatCategoryName(code)
  {
    OneWordEntry(code, "Tops");
  }

  lemma EntryVehicle(code: string)
    requires code == "vehicle"
    ensures code in CategoryNames && CategoryNames[code] == FormatCategoryName(code)
  {
    OneWordEntry(code, "Vehicle");
  }

  lemma EntryWomensBags(code: string)
    requires code == "womens-bags"
    ensures code in CategoryNames && CategoryNames[code] == FormatCategoryName(code)
  {
    TwoWordEntry(code, "womens", "bags", "Women's", "Bags");
  }

  lemma EntryWomensDresses(code: string)
    requires code == "womens-dresses"
    ensures code in CategoryNames && CategoryNames[code] == FormatCategoryName(code)
  {
    TwoWordEntry(code, "womens", "dresses", "Women's", "Dresses");
  }

  lemma EntryWomensJewellery(code: string)
    requires code == "womens-jewellery"
    ensures code in CategoryNames && CategoryNames[code] == FormatCategoryName(code)
  {
    TwoWordEntry(code, "womens", "jewellery", "Women's", "Jewellery");
  }

  lemma EntryWomensShoes(code: string)
    requires code == "womens-shoes"
    ensures code in CategoryNames && CategoryNames[code] == FormatCategoryName(code)
  {
    TwoWordEntry(code, "womens", "shoes", "Women's", "Shoes");
  }

  lemma EntryWomensWatches(code: string)
    requires code == "womens-watches"
    ensures code in CategoryNames && CategoryNames[code] == FormatCategoryName(code)
  {
    TwoWordEntry(code, "womens", "watches", "Women's", "Watches");
  }

  /** `sanitizeString`: a non-empty string passes through, anything else
      (a non-string, `null`, `''`) becomes the fallback. */
  function SanitizeString(str: JsValue.Value, fallback: string := ""): (r: string)
    ensures r != fallback ==> str == JsValue.Str(r) && r != ""
    ensures (str.Str? && str.s != "") ==> r == str.s
  {
    if str.Str? && str.s != "" then str.s else fallback
  }

  // ----- stock -----

  datatype StockStatus = OutOfStock | LowStock | InStock {
    function CssClass(): string {
      match this
      case OutOfStock => "out-of-stock"
      case LowStock => "low-stock"
      case InStock => "in-stock"
    }
    function Label(): string {
      match this
      case OutOfStock => "Out of Stock"
      case LowStock => "Low Stock"
      case InStock => "In Stock"
    }
  }

  /** `getStockStatus` (the caller has already turned the stock into an integer). */
  function GetStockStatus(stock: int): (r: StockStatus)
    ensures r == OutOfStock <==> stock == 0
    ensures r == InStock <==> stock > 10
    ensures r == LowStock <==> stock < 0 || 0 < stock <= 10
  {
    if stock == 0 then OutOfStock
    else if stock <= 10 then LowStock
    else InStock
  }

  // ----- validation -----

  /** `validatePinCode`: `/^[1-9][0-9]{5}$/`. */
  predicate ValidatePinCode(pinCode: string)
    ensures ValidatePinCode(pinCode) ==> Digits(pinCode) == pinCode
  {
    var ok := |pinCode| == 6 && '1' <= pinCode[0] <= '9' && AllDigits(pinCode);
    if ok then DigitsOfAllDigits(pinCode); ok else ok
  }

  /** A PIN is six digits that do not start with 0. */
  lemma PinCodeRule(s: string)
    ensures ValidatePinCode(s) <==> |s| == 6 && AllDigits(s) && s[0] != '0'
  {
  }

  /** The class `[^\s@]` of the e-mail pattern. */
  predicate EmailChar(c: char) {
    !IsWhitespace(c) && c != '@'
  }

  predicate AllEmailChars(s: string) {
    forall k :: 0 <= k < |s| ==> EmailChar(s[k])
  }

  /** `indexOf`: the first position of `c`, or -1. */
  function IndexOf(s: string, c: char): (r: int)
    ensures -1 <= r < |s|
    ensures r == -1 <==> c !in s
    ensures r >= 0 ==> s[r] == c && c !in s[..r]
  {
    if s == [] then -1
    else if s[0] == c then 0
    else
      var k := IndexOf(s[1..], c);
      assert s[1..][..if k < 0 then 0 else k] == s[1..if k < 0 then 1 else k + 1];
      if k < 0 then -1 else k + 1
  }

  /** The domain part: pattern characters with a dot strictly inside. */
  predicate ValidDomain(d: string) {
    AllEmailChars(d) && |d| >= 3 && '.' in d[1..|d| - 1]
  }

  /** `validateEmail`: the part before the first `@` is non-empty and the rest
      is a valid domain. */
  predicate ValidateEmail(email: string)
    ensures ValidateEmail(email) ==> '@' in email && ' ' !in email && email[0] != '@'
  {
    var at := IndexOf(email, '@');
    0 < at && AllEmailChars(email[..at]) && ValidDomain(email[at + 1..])
  }

  /** The pattern `/^[^\s@]+@[^\s@]+\.[^\s@]+$/` written as its three
      non-empty runs around an `@` and a dot. */
  ghost predicate MatchesEmailPattern(e: string) {
    exists i, j :: 0 < i && i + 1 < j && j + 1 < |e| && e[i] == '@' && e[j] == '.' &&
      AllEmailChars(e[..i]) && AllEmailChars(e[i + 1..j]) && AllEmailChars(e[j + 1..])
  }

  lemma ValidEmailMatchesPattern(e: string)
    requires ValidateEmail(e)
    ensures MatchesEmailPattern(e)
  {
    var i := IndexOf(e, '@');
    var d := e[i + 1..];
    var k :| 0 <= k < |d[1..|d| - 1]| && d[1..|d| - 1][k] == '.';
    var j := i + 2 + k;
    assert e[i + 1..j] == d[..k + 1];
    assert e[j + 1..] == d[k + 2..];
    assert e[j] == '.';
    assert AllEmailChars(e[i + 1..j]) && AllEmailChars(e[j + 1..]);
  }

  lemma AllEmailCharsConcat(a: string, b: string)
    requires AllEmailChars(a) && AllEmailChars(b)
    ensures AllEmailChars(a + b)
  {
    forall k | 0 <= k < |a + b| ensures EmailChar((a + b)[k]) {
      if k < |a| { assert (a + b)[k] == a[k]; } else { assert (a + b)[k] == b[k - |a|]; }
    }
  }

  lemma {:induction false} IndexOfFirst(s: string, c: char, i: nat)
    requires i < |s| && s[i] == c && forall k :: 0 <= k < i ==> s[k] != c
    ensures IndexOf(s, c) == i
  {
    if i > 0 {
      IndexOfFirst(s[1..], c, i - 1);
    }
  }

  lemma PatternAtIsValidEmail(e: string, i: nat, j: nat)
    requires 0 < i && i + 1 < j && j + 1 < |e| && e[i] == '@' && e[j] == '.'
    requires AllEmailChars(e[..i]) && AllEmailChars(e[i + 1..j]) && AllEmailChars(e[j + 1..])
    ensures ValidateEmail(e)
  {
    var at := IndexOf(e, '@');
    assert at == i by {
      assert forall k :: 0 <= k < i ==> e[..i][k] == e[k];
      IndexOfFirst(e, '@', i);
    }
    var d := e[i + 1..];
    assert AllEmailChars(d) by {
      assert d == (e[i + 1..j] + ['.']) + e[j + 1..];
      AllEmailCharsConcat(e[i + 1..j], ['.']);
      AllEmailCharsConcat(e[i + 1..j] + ['.'], e[j + 1..]);
    }
    assert '.' in d[1..|d| - 1] by {
      assert d[1..|d| - 1][j - i - 2] == e[j];
    }
    assert ValidDomain(e[at + 1..]);
  }

  lemma PatternMatchIsValidEmail(e: string)
    requires MatchesEmailPattern(e)
    ensures ValidateEmail(e)
  {
    var i, j :| 0 < i && i + 1 < j && j + 1 < |e| && e[i] == '@' && e[j] == '.' &&
      AllEmailChars(e[..i]) && AllEmailChars(e[i + 1..j]) && AllEmailChars(e[j + 1..]);
    PatternAtIsValidEmail(e, i, j);
  }

  /** `validateEmail` accepts exactly the strings its regular expression matches. */
  lemma ValidateEmailMatchesPattern(e: string)
    ensures ValidateEmail(e) <==> MatchesEmailPattern(e)
  {
    if ValidateEmail(e) {
      ValidEmailMatchesPattern(e);
    }
    if MatchesEmailPattern(e) {
      PatternMatchIsValidEmail(e);
    }
  }

  // ----- phone and address formatting -----

  /** `formatIndianPhoneNumber`: a ten-digit mobile number starting 6-9 is shown
      as `+91 XXXXX XXXXX`; any other non-empty input is returned as given. */
  function FormatIndianPhoneNumber(phone: string): (r: string)
    ensures phone == "" ==> r == ""
    ensures var d := Digits(phone);
      phone != "" && |d| == 10 && '6' <= d[0] <= '9' ==> r == "+91 " + d[..5] + " " + d[5..]
    ensures var d := Digits(phone);
      !(|d| == 10 && '6' <= d[0] <= '9') ==> r == phone
  {
    if phone == "" then ""
    else
      var cleaned := Digits(phone);
      if |cleaned| == 10 && '6' <= cleaned[0] <= '9'
      then "+91 " + cleaned[..5] + " " + cleaned[5..]
      else phone
  }

  lemma DigitsConcat(a: string, b: string)
    ensures Digits(a + b) == Digits(a) + Digits(b)
  {
    Seqs.FilterConcat(a, b, IsDigit);
  }

  lemma DigitsOfPrefix()
    ensures Digits("+91 ") == "91"
  {
    assert "+91 " == ['+'] + "91 ";
    assert "91 " == ['9'] + "1 ";
    assert "1 " == ['1'] + " ";
    assert " "[1..] == "";
  }

  /** The digits of `+91 XXXXX XXXXX` are the country code then the number. */
  lemma DigitsOfFormatted(cleaned: string)
    requires |cleaned| == 10 && AllDigits(cleaned)
    ensures Digits("+91 " + cleaned[..5] + " " + cleaned[5..]) == "91" + cleaned
  {
    DigitsOfGrouped(cleaned[..5], cleaned[5..]);
    assert cleaned[..5] + cleaned[5..] == cleaned;
  }

  lemma DigitsOfGrouped(a: string, b: string)
    requires AllDigits(a) && AllDigits(b)
    ensures Digits("+91 " + a + " " + b) == "91" + (a + b)
  {
    var x, y := "+91 " + a, " " + b;
    DigitsAfterCode(a);
    DigitsAfterSpace(b);
    DigitsConcat(x, y);
    assert "+91 " + a + " " + b == x + y;
  }

  lemma DigitsAfterCode(a: string)
    requires AllDigits(a)
    ensures Digits("+91 " + a) == "91" + a
  {
    DigitsOfPrefix();
    DigitsOfAllDigits(a);
    DigitsConcat("+91 ", a);
  }

  lemma DigitsAfterSpace(b: string)
    requires AllDigits(b)
    ensures Digits(" " + b) == b
  {
    assert Digits(" ") == "" by { assert " "[1..] == ""; }
    DigitsOfAllDigits(b);
    DigitsConcat(" ", b);
  }

  /** A formatted number keeps the cleaned digits behind the `91` country code,
      and formatting twice changes nothing more. */
  lemma FormatIndianPhoneNumberIdempotent(phone: string)
    ensures var r := FormatIndianPhoneNumber(phone);
      r != phone ==> |r| == 15 && Digits(r) == "91" + Digits(phone)
    ensures FormatIndianPhoneNumber(FormatIndianPhoneNumber(phone)) == FormatIndianPhoneNumber(phone)
  {
    var r := FormatIndianPhoneNumber(phone);
    if r != phone {
      DigitsOfFormatted(Digits(phone));
      assert |Digits(r)| == 12;
    }
  }

  datatype Address = Address(street: string, city: string, state: string, pinCode: string) {
    function Parts(): seq<string> {
      [street, city, state, pinCode]
    }
  }

  function NonEmpty(s: string): bool {
    s != ""
  }

  /** `formatIndianAddress`: the non-empty parts in the order street, city,
      state, PIN, separated by ", "; no address gives "". */
  function FormatIndianAddress(address: Option<Address>): (r: string)
    ensures r == "" <==> (address.None? || address.value.Parts() == ["", "", "", ""])
    ensures address.Some? && Filled(address.value) ==>
      var a := address.value;
      r == a.street + ", " + a.city + ", " + a.state + ", " + a.pinCode
  {
    match address
    case None => ""
    case Some(a) =>
      var parts := Seqs.Filter(a.Parts(), NonEmpty);
      FilterNonEmpty(a.Parts());
      JoinNonEmpty(parts, ", ");
      if Filled(a) then
        FilterFour(a.street, a.city, a.state, a.pinCode);
        assert parts == [a.street, a.city, a.state, a.pinCode];
        JoinFour(a.street, a.city, a.state, a.pinCode, ", ");
        Join(parts, ", ")
      else
        Join(parts, ", ")
  }

  /** All four fields are non-empty. */
  predicate Filled(a: Address) {
    a.street != "" && a.city != "" && a.state != "" && a.pinCode != ""
  }

  lemma JoinFour(a: string, b: string, c: string, d: string, sep: string)
    ensures Join([a, b, c, d], sep) == a + sep + b + sep + c + sep + d
  {
    assert [a, b, c, d][1..] == [b, c, d];
    JoinThree(b, c, d, sep);
    assert Join([a, b, c, d], sep) == a + sep + (b + sep + c + sep + d);
  }

  lemma JoinThree(a: string, b: string, c: string, sep: string)
    ensures Join([a, b, c], sep) == a + sep + b + sep + c
  {
    assert [a, b, c][1..] == [b, c];
    assert [b, c][1..] == [c];
    assert Join([b, c], sep) == b + sep + c;
    assert Join([a, b, c], sep) == a + sep + (b + sep + c);
  }

  /** Which of four fields the `filter(Boolean)` keeps. */
  lemma FilterFour(a: string, b: string, c: string, d: string)
    ensures Seqs.Filter([a, b, c, d], NonEmpty) == Kept(a) + (Kept(b) + (Kept(c) + Kept(d)))
  {
    FilterThree(b, c, d);
    Seqs.FilterCons(a, [b, c, d], NonEmpty);
    assert [a, b, c, d] == [a] + [b, c, d];
  }

  lemma FilterThree(b: string, c: string, d: string)
    ensures Seqs.Filter([b, c, d], NonEmpty) == Kept(b) + (Kept(c) + Kept(d))
  {
    FilterTwo(c, d);
    Seqs.FilterCons(b, [c, d], NonEmpty);
    assert [b, c, d] == [b] + [c, d];
  }

  lemma FilterTwo(c: string, d: string)
    ensures Seqs.Filter([c, d], NonEmpty) == Kept(c) + Kept(d)
  {
    Seqs.FilterCons(d, [], NonEmpty);
    assert [d] == [d] + [];
    Seqs.FilterCons(c, [d], NonEmpty);
    assert [c, d] == [c] + [d];
  }

  /** The field as `filter(Boolean)` keeps it: itself, or nothing when empty. */
  function Kept(field: string): seq<string> {
    if field != "" then [field] else []
  }

  /** A blank field is dropped together with its separator: leaving out the
      street, the city, the state or the PIN joins the other three. */
  lemma FormatIndianAddressSkipsBlank(street: string, city: string, state: string, pinCode: string)
    requires street != "" && city != "" && state != "" && pinCode != ""
    ensures FormatIndianAddress(Some(Address("", city, state, pinCode))) == city + ", " + state + ", " + pinCode
    ensures FormatIndianAddress(Some(Address(street, "", state, pinCode))) == street + ", " + state + ", " + pinCode
    ensures FormatIndianAddress(Some(Address(street, city, "", pinCode))) == street + ", " + city + ", " + pinCode
    ensures FormatIndianAddress(Some(Address(street, city, state, ""))) == street + ", " + city + ", " + state
  {
    SkipStreet(city, state, pinCode);
    SkipCity(street, state, pinCode);
    SkipState(street, city, pinCode);
    SkipPin(street, city, state);
  }

  lemma SkipStreet(city: string, state: string, pinCode: string)
    requires city != "" && state != "" && pinCode != ""
    ensures FormatIndianAddress(Some(Address("", city, state, pinCode))) == city + ", " + state + ", " + pinCode
  {
    FilterFour("", city, state, pinCode);
    assert Seqs.Filter(["", city, state, pinCode], NonEmpty) == [city, state, pinCode];
    ThreeKept(Address("", city, state, pinCode), city, state, pinCode);
  }

  lemma SkipCity(street: string, state: string, pinCode: string)
    requires street != "" && state != "" && pinCode != ""
    ensures FormatIndianAddress(Some(Address(street, "", state, pinCode))) == street + ", " + state + ", " + pinCode
  {
    FilterFour(street, "", state, pinCode);
    assert Seqs.Filter([street, "", state, pinCode], NonEmpty) == [street, state, pinCode];
    ThreeKept(Address(street, "", state, pinCode), street, state, pinCode);
  }

  lemma SkipState(street: string, city: string, pinCode: string)
    requires street != "" && city != "" && pinCode != ""
    ensures FormatIndianAddress(Some(Address(street, city, "", pinCode))) == street + ", " + city + ", " + pinCode
  {
    FilterFour(street, city, "", pinCode);
    assert Seqs.Filter([street, city, "", pinCode], NonEmpty) == [street, city, pinCode];
    ThreeKept(Address(street, city, "", pinCode), street, city, pinCode);
  }

  lemma SkipPin(street: string, city: string, state: string)
    requires street != "" && city != "" && state != ""
    ensures FormatIndianAddress(Some(Address(street, city, state, ""))) == street + ", " + city + ", " + state
  {
    FilterFour(street, city, state, "");
    assert Seqs.Filter([street, city, state, ""], NonEmpty) == [street, city, state];
    ThreeKept(Address(street, city, state, ""), street, city, state);
  }

  /** An address whose kept fields are `x`, `y` and `z` reads "x, y, z". */
  lemma ThreeKept(address: Address, x: string, y: string, z: string)
    requires Seqs.Filter(address.Parts(), NonEmpty) == [x, y, z]
    ensures FormatIndianAddress(Some(address)) == x + ", " + y + ", " + z
  {
    JoinThree(x, y, z, ", ");
  }

  lemma FilterNonEmpty(fields: seq<string>)
    ensures var parts := Seqs.Filter(fields, NonEmpty);
      (forall i :: 0 <= i < |parts| ==> parts[i] != "") &&
      (parts == [] <==> forall i :: 0 <= i < |fields| ==> fields[i] == "")
  {
    var parts := Seqs.Filter(fields, NonEmpty);
    assert forall i :: 0 <= i < |parts| ==> parts[i] in parts;
    forall i | 0 <= i < |fields| && fields[i] != "" ensures parts != [] {
      Seqs.FilterMembership(fields, NonEmpty, fields[i]);
    }
  }

  lemma {:induction false} JoinNonEmpty(parts: seq<string>, sep: string)
    requires forall i :: 0 <= i < |parts| ==> parts[i] != ""
    ensures Join(parts, sep) == "" <==> parts == []
  {
    if |parts| > 1 {
      JoinNonEmpty(parts[1..], sep);
    }
  }

  // ----- prices -----

  /** `calculateDiscountedPrice`: the INR price with a positive discount
      percentage applied; zero or negative discounts are ignored. */
  function CalculateDiscountedPrice(priceInUsd: real, discountPercentage: real): (r: real)
    ensures discountPercentage <= 0.0 ==> r == priceInUsd * UsdToInr
    ensures priceInUsd >= 0.0 && discountPercentage <= 100.0 ==> 0.0 <= r <= priceInUsd * UsdToInr
  {
    var priceInInr := priceInUsd * UsdToInr;
    if discountPercentage > 0.0 then priceInInr * (1.0 - discountPercentage / 100.0) else priceInInr
  }

  /** `calculateGST`: the tax on an amount at the given rate (18% by default). */
  function CalculateGst(amount: real, gstRate: real := GstRate): (r: real)
    ensures amount >= 0.0 && 0.0 <= gstRate <= 1.0 ==> 0.0 <= r <= amount
  {
    amount * gstRate
  }
}
