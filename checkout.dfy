/**
 * The logic of `src/pages/CheckoutPage.js`: the per-field rules, the digit
 * cleaning of the phone and PIN inputs, the form state the change, blur and
 * submit handlers update, and the order totals with their shipping rule.
 */
module Checkout {
  import opened Wrappers
  import opened Products
  import opened Text
  import Helpers
  import Cart

  // ----- field rules -----

  /** `/^[6-9]\d{9}$/`: ten digits, the first from 6 to 9. */
  predicate ValidMobile(v: string) {
    |v| == 10 && AllDigits(v) && '6' <= v[0] <= '9'
  }

  /** `validateField(name, value)`: the error message, or "" when the value
      passes (and for any name without a rule). */
  function ValidateField(name: string, value: string): (r: string)
    ensures name !in FieldNames ==> r == ""
  {
    if name == "fullName" then
      (if |Trim(value)| < 2 then "Full name must be at least 2 characters" else "")
    else if name == "email" then
      (if !Helpers.ValidateEmail(value) then "Please enter a valid email address" else "")
    else if name == "phone" then
      (if !ValidMobile(value) then "Please enter a valid 10-digit mobile number" else "")
    else if name == "address" then
      (if |Trim(value)| < 10 then "Address must be at least 10 characters" else "")
    else if name == "city" then
      (if Trim(value) == "" then "City is required" else "")
    else if name == "state" then
      (if Trim(value) == "" then "State is required" else "")
    else if name == "pinCode" then
      (if !Helpers.ValidatePinCode(value) then "PIN code must be 6 digits (first digit cannot be 0)" else "")
    else ""
  }

  /** The names of the form's fields, in the order the form declares them. */
  const FieldNames: seq<string> := ["fullName", "email", "phone", "address", "city", "state", "pinCode"]

  /** The text fields fail exactly when too short after trimming. */
  lemma TextFieldRules(name: string, value: string)
    ensures name == "fullName" ==> (ValidateField(name, value) != "" <==> |Trim(value)| < 2)
    ensures name == "address" ==> (ValidateField(name, value) != "" <==> |Trim(value)| < 10)
    ensures name == "city" || name == "state" ==> (ValidateField(name, value) != "" <==> Trim(value) == "")
  {
  }

  /** The phone and PIN fields pass exactly the well-formed numbers. */
  lemma FieldRules(name: string, value: string)
    ensures name == "phone" ==> (ValidateField(name, value) == "" <==> ValidMobile(value))
    ensures name == "pinCode" ==> (ValidateField(name, value) == "" <==> Helpers.ValidatePinCode(value))
  {
  }

  /** The e-mail field passes exactly the addresses of the form
      `local@domain.tld` with no whitespace and a single `@`. */
  lemma EmailRule(value: string)
    ensures ValidateField("email", value) == "" <==> Helpers.MatchesEmailPattern(value)
  {
    Helpers.ValidateEmailMatchesPattern(value);
  }

  /** A blank value fails every field of the form. */
  lemma BlankFieldFails(name: string, value: string)
    requires name in FieldNames && Trim(value) == ""
    ensures ValidateField(name, value) != ""
  {
    TrimBlank(value);
    if name == "email" {
      EmailStartsWithEmailChar(value);
    } else if name == "phone" {
      assert !ValidMobile(value) by {
        if |value| > 0 {
          assert IsWhitespace(value[0]);
        }
      }
    } else if name == "pinCode" {
      assert !Helpers.ValidatePinCode(value) by {
        if |value| > 0 {
          assert IsWhitespace(value[0]);
        }
      }
    }
  }

  /** An accepted e-mail address starts with a character of `[^\s@]`. */
  lemma EmailStartsWithEmailChar(value: string)
    ensures Helpers.ValidateEmail(value) ==> value != [] && Helpers.EmailChar(value[0])
  {
    if Helpers.ValidateEmail(value) {
      var at := Helpers.IndexOf(value, '@');
      assert value[..at][0] == value[0];
    }
  }

  // ----- input cleaning -----

  /** `s.slice(0, n)`. */
  function Prefix(s: string, n: nat): (r: string)
    ensures |r| == if |s| <= n then |s| else n
    ensures r <= s
  {
    if |s| <= n then s else s[..n]
  }

  /** What `handleInputChange` stores: the phone keeps its first ten digits,
      the PIN its first six, every other field the value as typed. */
  function CleanInput(name: string, value: string): (r: string)
    ensures name == "phone" ==> (AllDigits(r) && r <= Digits(value) &&
                                 |r| == if |Digits(value)| <= 10 then |Digits(value)| else 10)
    ensures name == "pinCode" ==> (AllDigits(r) && r <= Digits(value) &&
                                   |r| == if |Digits(value)| <= 6 then |Digits(value)| else 6)
    ensures name != "phone" && name != "pinCode" ==> r == value
  {
    if name == "phone" then Prefix(Digits(value), 10)
    else if name == "pinCode" then Prefix(Digits(value), 6)
    else value
  }

  /** Cleaning a cleaned value changes nothing. */
  lemma CleanInputIdempotent(name: string, value: string)
    ensures CleanInput(name, CleanInput(name, value)) == CleanInput(name, value)
  {
    var c := CleanInput(name, value);
    if name == "phone" || name == "pinCode" {
      DigitsOfAllDigits(c);
    }
  }

  /** A cleaned phone passes its rule exactly when the typed value has at
      least ten digits and the first is 6 to 9: extra digits are cut off
      rather than rejected. */
  lemma CleanedPhoneRule(value: string)
    ensures ValidateField("phone", CleanInput("phone", value)) == "" <==>
      |Digits(value)| >= 10 && '6' <= Digits(value)[0] <= '9'
  {
    var d := Digits(value);
    if |d| >= 10 {
      assert CleanInput("phone", value)[0] == d[0];
    }
  }

  /** A cleaned PIN passes its rule exactly when the typed value has at least
      six digits and the first is not 0. */
  lemma CleanedPinRule(value: string)
    ensures ValidateField("pinCode", CleanInput("pinCode", value)) == "" <==>
      |Digits(value)| >= 6 && Digits(value)[0] != '0'
  {
    var d := Digits(value);
    Helpers.PinCodeRule(CleanInput("pinCode", value));
    if |d| >= 6 {
      assert CleanInput("pinCode", value)[0] == d[0];
    }
  }

  /** Typing a valid mobile number behind its `91` country code keeps the
      country code and drops the number's last two digits, and the result
      still passes the phone rule. */
  lemma CountryCodeShiftsNumber(local: string)
    requires ValidMobile(local)
    ensures CleanInput("phone", "91" + local) == "91" + local[..8]
    ensures ValidateField("phone", CleanInput("phone", "91" + local)) == ""
  {
    var typed := "91" + local;
    assert AllDigits(typed);
    DigitsOfAllDigits(typed);
    assert typed[..10] == "91" + local[..8];
    var cleaned := "91" + local[..8];
    assert ValidMobile(cleaned);
    FieldRules("phone", cleaned);
  }

  // ----- the form -----

  /** The errors `validateForm` collects: one message per failing field. */
  function FormErrors(data: map<string, string>): (errors: map<string, string>)
    ensures forall k :: k in errors <==> k in data && ValidateField(k, data[k]) != ""
    ensures forall k :: k in errors ==> errors[k] == ValidateField(k, data[k])
  {
    map k | k in data && ValidateField(k, data[k]) != "" :: ValidateField(k, data[k])
  }

  /** The form is accepted exactly when every field passes its rule. */
  lemma FormAcceptedIffAllFieldsPass(data: map<string, string>)
    ensures |FormErrors(data)| == 0 <==> forall k :: k in data ==> ValidateField(k, data[k]) == ""
  {
    if |FormErrors(data)| == 0 {
      assert FormErrors(data).Keys == {};
    } else {
      var k :| k in FormErrors(data);
      assert k in data && ValidateField(k, data[k]) != "";
    }
  }

  /** The `reduce` of `validateForm`: visit every key once and record the
      message of each failing field. */
  method CollectErrors(data: map<string, string>) returns (errors: map<string, string>)
    ensures forall k :: k in errors <==> k in data && ValidateField(k, data[k]) != ""
    ensures forall k :: k in errors ==> errors[k] == ValidateField(k, data[k])
  {
    errors := map[];
    var remaining := data.Keys;
    while remaining != {}
      invariant remaining <= data.Keys
      invariant forall k :: k in errors <==> k in data && k !in remaining && ValidateField(k, data[k]) != ""
      invariant forall k :: k in errors ==> errors[k] == ValidateField(k, data[k])
      decreases |remaining|
    {
      var key :| key in remaining;
      var error := ValidateField(key, data[key]);
      if error != "" {
        errors := errors[key := error];
      }
      remaining := remaining - {key};
    }
  }

  /** The empty form every checkout starts with. */
  const InitialData: map<string, string> := map[
    "fullName" := "", "email" := "", "phone" := "", "address" := "",
    "city" := "", "state" := "", "pinCode" := ""]

  /** The checkout form's state: the values and the shown errors. */
  class Form {
    var data: map<string, string>
    var errors: map<string, string>

    constructor()
      ensures data == InitialData && errors == map[]
    {
      data := InitialData;
      errors := map[];
    }

    /** `handleInputChange`: store the cleaned value and blank that field's
        error if one is shown. */
    method HandleInputChange(name: string, value: string)
      modifies this
      ensures data == old(data)[name := CleanInput(name, value)]
      ensures name in old(errors) && old(errors)[name] != "" ==> errors == old(errors)[name := ""]
      ensures !(name in old(errors) && old(errors)[name] != "") ==> errors == old(errors)
    {
      var cleaned := value;
      if name == "phone" {
        cleaned := Prefix(Digits(value), 10);
      } else if name == "pinCode" {
        cleaned := Prefix(Digits(value), 6);
      }
      data := data[name := cleaned];
      if name in errors && errors[name] != "" {
        errors := errors[name := ""];
      }
    }

    /** `handleInputBlur`: show the field's error if it has one. */
    method HandleInputBlur(name: string, value: string)
      modifies this
      ensures data == old(data)
      ensures var e := ValidateField(name, value);
        errors == if e != "" then old(errors)[name := e] else old(errors)
    {
      var error := ValidateField(name, value);
      if error != "" {
        errors := errors[name := error];
      }
    }

    /** `validateForm`: replace the shown errors by the collected ones and
        report whether there are none. */
    method ValidateForm() returns (ok: bool)
      modifies this
      ensures data == old(data) && errors == FormErrors(data)
      ensures ok <==> forall k :: k in data ==> ValidateField(k, data[k]) == ""
    {
      errors := CollectErrors(data);
      ok := |errors| == 0;
      FormAcceptedIffAllFieldsPass(data);
    }
  }

  // ----- totals -----

  /** The totals of the order confirmation. */
  datatype Totals = Totals(subtotal: real, gst: real, shippingCost: real, finalTotal: real)

  /** The shipping rule: free from 999 on, 99 below. */
  function Shipping(subtotal: real): real {
    if subtotal >= 999.0 then 0.0 else 99.0
  }

  /** One line's total as `computeTotals` prices it: the discount is applied
      whatever its sign. */
  function CheckoutLineTotal(l: Cart.Line): real {
    l.product.price * Helpers.UsdToInr * (1.0 - OrZero(l.product.discountPercentage) / 100.0) * l.quantity as real
  }

  function CheckoutSubtotal(items: seq<Cart.Line>): real {
    if items == [] then 0.0 else CheckoutLineTotal(items[0]) + CheckoutSubtotal(items[1..])
  }

  /** `computeTotals(items)`. */
  function ComputeTotals(items: seq<Cart.Line>): (t: Totals)
    ensures t.subtotal == CheckoutSubtotal(items)
    ensures t.shippingCost == 0.0 <==> t.subtotal >= 999.0
    ensures t.shippingCost != 0.0 ==> t.shippingCost == 99.0
    ensures t.gst == t.subtotal * 0.18
    ensures t.finalTotal == t.subtotal + t.gst + t.shippingCost
    ensures t.finalTotal == t.subtotal * 1.18 + t.shippingCost
  {
    var subtotal := CheckoutSubtotal(items);
    var gst := subtotal * 0.18;
    var shipping := Shipping(subtotal);
    Totals(subtotal, gst, shipping, subtotal + gst + shipping)
  }

  predicate NoNegativeDiscount(items: seq<Cart.Line>) {
    forall i :: 0 <= i < |items| ==> OrZero(items[i].product.discountPercentage) >= 0.0
  }

  lemma LineTotalsAgree(l: Cart.Line)
    requires OrZero(l.product.discountPercentage) >= 0.0
    ensures CheckoutLineTotal(l) == Cart.LineTotal(l)
  {
  }

  /** Without negative discounts the checkout subtotal is the cart's, and the
      final total is the cart's grand total plus shipping. */
  lemma {:induction false} CheckoutMatchesCart(items: seq<Cart.Line>)
    requires NoNegativeDiscount(items)
    ensures CheckoutSubtotal(items) == Cart.Subtotal(items)
    ensures ComputeTotals(items).finalTotal == Cart.GrandTotal(items) + ComputeTotals(items).shippingCost
  {
    if items != [] {
      LineTotalsAgree(items[0]);
      CheckoutMatchesCart(items[1..]);
    }
    Cart.GrandTotalIsSubtotalWithGst(items);
  }

  /** A negative discount is ignored by the cart but applied (as a surcharge)
      by the checkout, so the two subtotals part. */
  lemma NegativeDiscountTotalsDiffer()
    ensures var p := Product(1, "Pen", 1.0, Some(-10.0), None, Some(5), "tops");
      CheckoutSubtotal([Cart.Line(p, 1)]) != Cart.Subtotal([Cart.Line(p, 1)])
  {
    var p := Product(1, "Pen", 1.0, Some(-10.0), None, Some(5), "tops");
    assert CheckoutSubtotal([Cart.Line(p, 1)]) == 83.12 * 1.1;
    assert Cart.Subtotal([Cart.Line(p, 1)]) == 83.12;
  }
}
