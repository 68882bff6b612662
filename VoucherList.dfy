/** The voucher list screen: stored vouchers with numeric amounts, the
    per-voucher debit and credit totals, the detail rows, and the map of
    expanded vouchers. */
module VoucherList {
  import opened Amounts

  /** One stored ledger line. */
  datatype LineItem = LineItem(id: int, account: string, description: string, debit: real, credit: real)

  datatype Voucher = Voucher(
    id: int,
    date: string,
    voucherNumber: string,
    description: string,
    items: seq<LineItem>,
    receipts: seq<string>)

  function AmountOf(item: LineItem, side: Side): real
  {
    if side == Debit then item.debit else item.credit
  }

  /** `items.reduce((sum, item) => sum + item.debit, acc)` (or `.credit`). */
  function Reduce(items: seq<LineItem>, side: Side, acc: real): real
  {
    if items == [] then acc else Reduce(items[1..], side, acc + AmountOf(items[0], side))
  }

  /** The total the list shows for one voucher: the reduce started at 0. */
  function VoucherTotal(v: Voucher, side: Side): real
  {
    Reduce(v.items, side, 0.0)
  }

  /** Reference definition of a column total: the sum of its amounts. */
  function Sum(items: seq<LineItem>, side: Side): real
  {
    if items == [] then 0.0 else AmountOf(items[0], side) + Sum(items[1..], side)
  }

  lemma {:induction false} ReduceIsSum(items: seq<LineItem>, side: Side, acc: real)
    ensures Reduce(items, side, acc) == acc + Sum(items, side)
  {
    if items != [] {
      ReduceIsSum(items[1..], side, acc + AmountOf(items[0], side));
    }
  }

  /** The shown total is the sum of the voucher's amounts on that side. */
  lemma VoucherTotalIsSum(v: Voucher, side: Side)
    ensures VoucherTotal(v, side) == Sum(v.items, side)
  {
    ReduceIsSum(v.items, side, 0.0);
  }

  lemma {:induction false} SumAppend(a: seq<LineItem>, b: seq<LineItem>, side: Side)
    ensures Sum(a + b, side) == Sum(a, side) + Sum(b, side)
  {
    if a != [] {
      assert (a + b)[1..] == a[1..] + b;
      SumAppend(a[1..], b, side);
    } else {
      assert a + b == b;
    }
  }

  predicate NonNegative(items: seq<LineItem>, side: Side)
  {
    forall i :: 0 <= i < |items| ==> AmountOf(items[i], side) >= 0.0
  }

  lemma {:induction false} SumNonNegative(items: seq<LineItem>, side: Side)
    requires NonNegative(items, side)
    ensures Sum(items, side) >= 0.0
  {
    if items != [] {
      assert NonNegative(items[1..], side) by {
        forall i | 0 <= i < |items| - 1 ensures AmountOf(items[1..][i], side) >= 0.0 {
          assert items[1..][i] == items[i + 1];
        }
      }
      SumNonNegative(items[1..], side);
    }
  }

  const SampleVouchers: seq<Voucher> := [
    Voucher(1, "2023-04-10", "PZ202304001", "购买办公设备",
      [ LineItem(1, "1001 固定资产", "购买电脑", 10000.0, 0.0),
        LineItem(2, "1002 银行存款", "支付电脑款", 0.0, 10000.0) ],
      ["receipt-v001.jpg"]),
    Voucher(2, "2023-04-15", "PZ202304002", "收到客户款项",
      [ LineItem(3, "1002 银行存款", "客户XYZ付款", 8000.0, 0.0),
        LineItem(4, "6001 主营业务收入", "确认收入", 0.0, 8000.0) ],
      []),
    Voucher(3, "2023-04-20", "PZ202304003", "支付员工工资",
      [ LineItem(5, "5001 工资费用", "4月份工资", 25000.0, 0.0),
        LineItem(6, "2001 应交税金", "代扣个人所得税", 0.0, 2500.0),
        LineItem(7, "1002 银行存款", "实发工资", 0.0, 22500.0) ],
      ["receipt-v002.jpg", "receipt-v003.jpg"])
  ]

  lemma TwoLineTotal(a: LineItem, b: LineItem, side: Side)
    ensures Sum([a, b], side) == AmountOf(a, side) + AmountOf(b, side)
  {
    assert [a, b][1..] == [b];
    assert [b][1..] == [];
    assert Sum([b], side) == AmountOf(b, side);
  }

  lemma ThreeLineTotal(a: LineItem, b: LineItem, c: LineItem, side: Side)
    ensures Sum([a, b, c], side) == AmountOf(a, side) + AmountOf(b, side) + AmountOf(c, side)
  {
    assert [a, b, c][1..] == [b, c];
    TwoLineTotal(b, c, side);
  }

  /** Every sample voucher balances: 10000/10000, 8000/8000 and
      25000/(2500 + 22500). */
  lemma SampleVouchersBalance()
    ensures forall v :: v in SampleVouchers ==> VoucherTotal(v, Debit) == VoucherTotal(v, Credit)
    ensures VoucherTotal(SampleVouchers[0], Debit) == 10000.0
    ensures VoucherTotal(SampleVouchers[1], Debit) == 8000.0
    ensures VoucherTotal(SampleVouchers[2], Debit) == 25000.0
  {
    var v0, v1, v2 := SampleVouchers[0], SampleVouchers[1], SampleVouchers[2];
    forall side: Side ensures VoucherTotal(v0, side) == Sum(v0.items, side)
                          && VoucherTotal(v1, side) == Sum(v1.items, side)
                          && VoucherTotal(v2, side) == Sum(v2.items, side) {
      VoucherTotalIsSum(v0, side);
      VoucherTotalIsSum(v1, side);
      VoucherTotalIsSum(v2, side);
      TwoLineTotal(v0.items[0], v0.items[1], side);
      TwoLineTotal(v1.items[0], v1.items[1], side);
      ThreeLineTotal(v2.items[0], v2.items[1], v2.items[2], side);
    }
  }

  /** A detail cell shows the amount when it is above zero and '-' (None)
      otherwise. */
  function DetailCell(x: real): (c: Option<real>)
    ensures c.Some? <==> x > 0.0
    ensures c.Some? ==> c.value == x
  {
    if x > 0.0 then Some(x) else None
  }

  /** The sum of what the detail cells of one column show, '-' read as 0. */
  function ShownSum(items: seq<LineItem>, side: Side): real
  {
    if items == [] then 0.0
    else (match DetailCell(AmountOf(items[0], side)) case Some(x) => x case None => 0.0)
         + ShownSum(items[1..], side)
  }

  /** With no negative amount, the footer total is what the detail cells show. */
  lemma {:induction false} ShownCellsAddUpToTotal(v: Voucher, side: Side)
    requires NonNegative(v.items, side)
    ensures ShownSum(v.items, side) == VoucherTotal(v, side)
  {
    VoucherTotalIsSum(v, side);
    ShownMatchesSum(v.items, side);
  }

  lemma {:induction false} ShownMatchesSum(items: seq<LineItem>, side: Side)
    requires NonNegative(items, side)
    ensures ShownSum(items, side) == Sum(items, side)
  {
    if items != [] {
      assert NonNegative(items[1..], side) by {
        forall i | 0 <= i < |items| - 1 ensures AmountOf(items[1..][i], side) >= 0.0 {
          assert items[1..][i] == items[i + 1];
        }
      }
      ShownMatchesSum(items[1..], side);
    }
  }

  /** A negative amount is shown as '-' yet still counts in the footer total. */
  lemma NegativeAmountHiddenButCounted()
    ensures var v := Voucher(9, "", "", "", [LineItem(1, "", "", -5.0, 0.0)], []);
            DetailCell(v.items[0].debit) == None && VoucherTotal(v, Debit) == -5.0
  {
  }

  /** `expandedVouchers[id] || false`: a voucher with no entry is collapsed. */
  predicate IsExpanded(expanded: map<int, bool>, id: int)
    ensures id !in expanded ==> !IsExpanded(expanded, id)
  {
    id in expanded && expanded[id]
  }

  /** `{ ...prev, [id]: !prev[id] }`: flips the flag of `id`, every other
      entry is kept as it was. */
  function Toggled(expanded: map<int, bool>, id: int): (r: map<int, bool>)
    ensures id in r && IsExpanded(r, id) == !IsExpanded(expanded, id)
    ensures forall k :: k != id ==> (k in r <==> k in expanded)
    ensures forall k :: k != id && k in expanded ==> r[k] == expanded[k]
  {
    expanded[id := !IsExpanded(expanded, id)]
  }

  /** Toggling one voucher never changes how another one reads. */
  lemma ToggleLeavesOthers(expanded: map<int, bool>, id: int, other: int)
    requires other != id
    ensures IsExpanded(Toggled(expanded, id), other) == IsExpanded(expanded, other)
  {
  }

  /** Toggling twice restores every voucher's expanded reading. */
  lemma ToggleTwiceRestoresReading(expanded: map<int, bool>, id: int, k: int)
    ensures IsExpanded(Toggled(Toggled(expanded, id), id), k) == IsExpanded(expanded, k)
  {
  }

  /** ... but not necessarily the map: an absent key comes back as `false`. */
  lemma ToggleTwiceMayChangeMap()
    ensures Toggled(Toggled(map[], 7), 7) == map[7 := false]
    ensures Toggled(Toggled(map[], 7), 7) != map[]
  {
    assert 7 in Toggled(Toggled(map[], 7), 7);
  }

  /** One row of the table: the voucher, its two totals, and whether its
      details are open. */
  datatype Row = Row(voucher: Voucher, debitTotal: real, creditTotal: real, expanded: bool)

  class VoucherListView {
    const vouchers: seq<Voucher>
    var startDate: string
    var endDate: string
    var expanded: map<int, bool>

    constructor ()
      ensures vouchers == SampleVouchers
      ensures startDate == "" && endDate == "" && expanded == map[]
    {
      vouchers := SampleVouchers;
      startDate, endDate := "", "";
      expanded := map[];
    }

    /** The table: every voucher, in order; the date fields are not used. */
    function Rows(): (r: seq<Row>)
      reads this
      ensures |r| == |vouchers|
      ensures forall i :: 0 <= i < |r| ==> r[i].voucher == vouchers[i]
    {
      var vs, open := vouchers, expanded;
      seq(|vs|, i requires 0 <= i < |vs| =>
        Row(vs[i], VoucherTotal(vs[i], Debit), VoucherTotal(vs[i], Credit), IsExpanded(open, vs[i].id)))
    }

    method ToggleVoucherExpand(id: int)
      modifies this`expanded
      ensures expanded == Toggled(old(expanded), id)
      ensures |Rows()| == |old(Rows())|
      ensures forall i :: 0 <= i < |vouchers| ==>
        Rows()[i].expanded == (if vouchers[i].id == id then !old(Rows())[i].expanded else old(Rows())[i].expanded)
      ensures forall i :: 0 <= i < |vouchers| ==>
        Rows()[i].debitTotal == old(Rows())[i].debitTotal && Rows()[i].creditTotal == old(Rows())[i].creditTotal
    {
      expanded := Toggled(expanded, id);
    }

    method SetStartDate(d: string)
      modifies this`startDate
      ensures startDate == d && Rows() == old(Rows())
    {
      startDate := d;
    }

    method SetEndDate(d: string)
      modifies this`endDate
      ensures endDate == d && Rows() == old(Rows())
    {
      endDate := d;
    }
  }
}
