/**
 * The pricing calculator of the landing page (`calculatePrice`): a base price,
 * a charge per user and a charge per checked feature, shown as a monthly price.
 */
module Pricing {
  import opened Optional
  import opened JsString

  const BasePrice := 99
  const PricePerUser := 10
  const PricePerFeature := 25

  /**
   * `parseInt(value) || 1`: the number of users typed in, where `NaN` and `0`
   * (both falsy) fall back to 1. A negative count is kept as it is.
   */
  function Users(value: string): (users: int)
    ensures users != 0
    ensures ParseInt(value) == Some(users) || (users == 1 && ParseInt(value) in {None, Some(0)})
  {
    match ParseInt(value)
    case None => 1
    case Some(n) => if n == 0 then 1 else n
  }

  /** The number of feature checkboxes that are checked (`:checked` and `.length`). */
  function CountChecked(checked: seq<bool>): (n: nat)
    ensures n <= |checked|
    ensures n == multiset(checked)[true]
  {
    if checked == [] then 0
    else
      assert checked == [checked[0]] + checked[1..];
      (if checked[0] then 1 else 0) + CountChecked(checked[1..])
  }

  /** The monthly total for the typed user count and the feature checkboxes. */
  function Total(value: string, checked: seq<bool>): int {
    BasePrice + Users(value) * PricePerUser + CountChecked(checked) * PricePerFeature
  }

  /** The text shown in the result: `$<total>/month`. */
  function PriceText(value: string, checked: seq<bool>): string {
    "$" + IntToString(Total(value, checked)) + "/month"
  }

  /**
   * A user count typed as a plain numeral is read as that number, except that
   * zero counts as one user; checking one more feature adds 25.
   */
  lemma TotalOfNumeral(n: nat, checked: seq<bool>)
    ensures Total(NatToString(n), checked) ==
            BasePrice + (if n == 0 then 1 else n) * PricePerUser + CountChecked(checked) * PricePerFeature
    ensures Total(NatToString(n), checked + [true]) == Total(NatToString(n), checked) + PricePerFeature
  {
    ParseIntNatToString(n);
    CountAppend(checked, [true]);
    assert CountChecked([true]) == 1 by {
      assert [true][1..] == [];
    }
  }

  /** With nothing readable in the user field the price is that of one user. */
  lemma TotalWithoutUsers(value: string, checked: seq<bool>)
    requires ParseInt(value).None?
    ensures Total(value, checked) == BasePrice + PricePerUser + CountChecked(checked) * PricePerFeature
    ensures Total(value, checked) == Total("0", checked)
  {
    assert Users(value) == 1;
    UsersOfZero();
  }

  lemma UsersOfZero()
    ensures Users("0") == 1
  {
    assert "0" == NatToString(0);
    ParseIntNatToString(0);
  }

  /** A checked feature counts wherever it is in the list. */
  lemma {:induction false} CountAppend(a: seq<bool>, b: seq<bool>)
    ensures CountChecked(a + b) == CountChecked(a) + CountChecked(b)
  {
    if a != [] {
      assert (a + b)[1..] == a[1..] + b;
      CountAppend(a[1..], b);
    } else {
      assert a + b == b;
    }
  }

  /** The amount in the shown text reads back, with `parseInt`, as the total. */
  lemma PriceTextShowsTotal(value: string, checked: seq<bool>)
    ensures PriceText(value, checked)[..1] == "$"
    ensures PriceText(value, checked)[|PriceText(value, checked)| - 6..] == "/month"
    ensures ParseInt(PriceText(value, checked)[1..|PriceText(value, checked)| - 6]) == Some(Total(value, checked))
  {
    var amount := IntToString(Total(value, checked));
    var text := PriceText(value, checked);
    assert text[1..|text| - 6] == amount;
    ParseIntIntToString(Total(value, checked));
  }
}
