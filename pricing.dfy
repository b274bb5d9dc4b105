/**
 * Pricing of a ticket's receipt (`calcSubtotal` and `ceilBaht`): the
 * subtotal of the item lines and the whole-baht amount the customer is
 * asked to pay, with the rounding adjustment shown beside it.
 */
module Pricing {
  import opened Basics

  /** One receipt line, `{ name, qty, unitPrice }`, as staff enter it in the add-item form. */
  datatype Item = Item(name: string, qty: real, unitPrice: real)

  /** The amount of one line, qty times unit price. */
  function LineTotal(it: Item): real {
    it.qty * it.unitPrice
  }

  /** Reference definition of a subtotal: the line amounts added up, last line innermost. */
  ghost function SumLines(items: seq<Item>): real {
    if items == [] then 0.0 else LineTotal(items[0]) + SumLines(items[1..])
  }

  /** The accumulation `calcSubtotal` performs: a left-to-right reduce that starts from `acc`. */
  function Reduce(acc: real, items: seq<Item>): real
    decreases |items|
  {
    if items == [] then acc else Reduce(acc + LineTotal(items[0]), items[1..])
  }

  lemma {:induction false} ReduceIsSum(acc: real, items: seq<Item>)
    ensures Reduce(acc, items) == acc + SumLines(items)
    decreases |items|
  {
    if items != [] {
      ReduceIsSum(acc + LineTotal(items[0]), items[1..]);
    }
  }

  /**
   * `calcSubtotal(items)`: the sum of qty times unit price over the lines,
   * taken from 0; a missing list counts as empty.
   */
  function CalcSubtotal(items: Option<seq<Item>>): (subtotal: real)
    ensures subtotal == SumLines(items.GetOr([]))
    ensures items.None? || items == Some([]) ==> subtotal == 0.0
  {
    ReduceIsSum(0.0, items.GetOr([]));
    Reduce(0.0, items.GetOr([]))
  }

  lemma {:induction false} SumLinesConcat(a: seq<Item>, b: seq<Item>)
    ensures SumLines(a + b) == SumLines(a) + SumLines(b)
    decreases |a|
  {
    if a == [] {
      assert a + b == b;
    } else {
      assert (a + b)[1..] == a[1..] + b;
      SumLinesConcat(a[1..], b);
    }
  }

  /** Appending a line raises the subtotal by exactly that line's amount. */
  lemma {:induction false} SumLinesAppend(items: seq<Item>, it: Item)
    ensures SumLines(items + [it]) == SumLines(items) + LineTotal(it)
  {
    SumLinesConcat(items, [it]);
    assert [it][1..] == [];
  }

  /** Replacing line `k` changes the subtotal by the difference of the two line amounts. */
  lemma {:induction false} SumLinesReplace(items: seq<Item>, k: nat, it: Item)
    requires k < |items|
    ensures SumLines(items[k := it]) == SumLines(items) - LineTotal(items[k]) + LineTotal(it)
  {
    assert items == items[..k] + ([items[k]] + items[k + 1..]);
    assert items[k := it] == items[..k] + ([it] + items[k + 1..]);
    SumLinesConcat(items[..k], [items[k]] + items[k + 1..]);
    SumLinesConcat([items[k]], items[k + 1..]);
    SumLinesConcat(items[..k], [it] + items[k + 1..]);
    SumLinesConcat([it], items[k + 1..]);
    assert [items[k]][1..] == [] && [it][1..] == [];
  }

  /** Removing line `k` lowers the subtotal by exactly that line's amount. */
  lemma {:induction false} SumLinesRemove(items: seq<Item>, k: nat)
    requires k < |items|
    ensures SumLines(items[..k] + items[k + 1..]) == SumLines(items) - LineTotal(items[k])
  {
    assert items == items[..k] + ([items[k]] + items[k + 1..]);
    SumLinesConcat(items[..k], [items[k]] + items[k + 1..]);
    SumLinesConcat([items[k]], items[k + 1..]);
    SumLinesConcat(items[..k], items[k + 1..]);
    assert [items[k]][1..] == [];
  }

  /** Every line passed the form's check: finite qty above 0 and finite unit price of at least 0. */
  predicate ItemsValid(items: seq<Item>) {
    forall i :: 0 <= i < |items| ==> items[i].qty > 0.0 && items[i].unitPrice >= 0.0
  }

  /** Lines that passed the form's check never give a negative subtotal. */
  lemma {:induction false} SubtotalNonNegative(items: seq<Item>)
    requires ItemsValid(items)
    ensures CalcSubtotal(Some(items)) >= 0.0
    decreases |items|
  {
    if items != [] {
      assert ItemsValid(items[1..]) by {
        forall i | 0 <= i < |items[1..]| ensures items[1..][i].qty > 0.0 && items[1..][i].unitPrice >= 0.0 {
          assert items[1..][i] == items[i + 1];
        }
      }
      SubtotalNonNegative(items[1..]);
      var q, p := items[0].qty, items[0].unitPrice;
      assert q * p >= 0.0 by {
        assert q > 0.0 && p >= 0.0;
      }
    }
  }

  /** What `ceilBaht` returns: the amount to pay in whole baht and the adjustment added to reach it. */
  datatype Rounded = Rounded(total: int, rounding: real)

  /**
   * `ceilBaht(subtotal)`: `total` is the least whole number of baht not below
   * the subtotal, and `rounding` is what was added to get there.
   */
  function CeilBaht(subtotal: real): (r: Rounded)
    ensures subtotal <= r.total as real < subtotal + 1.0
    ensures r.rounding == r.total as real - subtotal
    ensures 0.0 <= r.rounding < 1.0
    ensures subtotal == subtotal.Floor as real <==> r.rounding == 0.0
  {
    var whole := subtotal.Floor;
    var total := if whole as real == subtotal then whole else whole + 1;
    Rounded(total, total as real - subtotal)
  }

  /** No other whole number qualifies: `total` is the ceiling of the subtotal. */
  lemma CeilBahtIsLeast(subtotal: real, n: int)
    requires subtotal <= n as real
    ensures CeilBaht(subtotal).total <= n
  {
  }
}
