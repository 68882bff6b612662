/** The double-entry voucher editor: an ordered list of ledger rows that the
    user edits row by row, the running debit and credit totals, and the
    submit gate (header fields, then each row, then the balance). */
module VoucherForm {
  import opened Amounts
  import opened Seqs
  import VoucherList

  /** One editor row (`VoucherItem`). Amount cells hold what was typed, or
      the numbers of a stored voucher opened for editing. */
  datatype Item = Item(id: int, account: string, description: string, debit: Cell, credit: Cell)

  /** The row `addItem` appends and a new form starts with. */
  function BlankItem(id: int): (it: Item)
    ensures it.id == id && it.account == "" && it.description == ""
    ensures !Truthy(it.debit) && !Truthy(it.credit)
    ensures NumberOrZero(it.debit) == 0.0 && NumberOrZero(it.credit) == 0.0
  {
    Item(id, "", "", Blank, Blank)
  }

  function AmountCell(it: Item, side: Side): Cell
  {
    if side == Debit then it.debit else it.credit
  }

  /** The field names `updateItem` is called with. */
  datatype Field = AccountField | DescriptionField | AmountField(side: Side)

  /** Every field of a row, the text fields read as text cells. */
  function Get(it: Item, f: Field): Cell
  {
    match f
    case AccountField => Text(it.account)
    case DescriptionField => Text(it.description)
    case AmountField(side) => AmountCell(it, side)
  }

  /** `{ ...item, [field]: value }`. */
  function SetField(it: Item, f: Field, v: string): (r: Item)
    ensures r.id == it.id
    ensures forall g :: Get(r, g) == if g == f then Text(v) else Get(it, g)
  {
    match f
    case AccountField => it.(account := v)
    case DescriptionField => it.(description := v)
    case AmountField(side) => if side == Debit then it.(debit := Text(v)) else it.(credit := Text(v))
  }

  /** `updateItem`'s new list: only `f` of the rows whose id is `id` changes;
      length, order, ids, other rows and other fields are kept. */
  function UpdateRows(items: seq<Item>, id: int, f: Field, v: string): (r: seq<Item>)
    ensures |r| == |items|
    ensures forall i :: 0 <= i < |items| ==> r[i].id == items[i].id
    ensures forall i :: 0 <= i < |items| && items[i].id != id ==> r[i] == items[i]
    ensures forall i, g :: 0 <= i < |items| && items[i].id == id ==>
              Get(r[i], g) == if g == f then Text(v) else Get(items[i], g)
  {
    seq(|items|, i requires 0 <= i < |items| =>
      if items[i].id == id then SetField(items[i], f, v) else items[i])
  }

  /** Number of rows carrying a given id. */
  function CountId(items: seq<Item>, id: int): nat
  {
    if items == [] then 0 else (if items[0].id == id then 1 else 0) + CountId(items[1..], id)
  }

  /** `items.filter(item => item.id !== id)`: exactly the rows with that id
      are dropped, the others kept in order. */
  function Without(items: seq<Item>, id: int): (r: seq<Item>)
    ensures |r| == |items| - CountId(items, id)
    ensures forall x :: x in r <==> x in items && x.id != id
    ensures IsSubsequence(r, items)
  {
    if items == [] then []
    else if items[0].id == id then Without(items[1..], id)
    else
      var rest := Without(items[1..], id);
      assert ([items[0]] + rest)[1..] == rest;
      [items[0]] + rest
  }

  predicate DistinctIds(items: seq<Item>)
  {
    forall i, j :: 0 <= i < j < |items| ==> items[i].id != items[j].id
  }

  lemma {:induction false} CountAtMostOne(items: seq<Item>, id: int)
    requires DistinctIds(items)
    ensures CountId(items, id) <= 1
  {
    if items != [] {
      assert DistinctIds(items[1..]) by {
        forall i, j | 0 <= i < j < |items| - 1 ensures items[1..][i].id != items[1..][j].id {
          assert items[1..][i] == items[i + 1] && items[1..][j] == items[j + 1];
        }
      }
      CountAtMostOne(items[1..], id);
      if items[0].id == id {
        NoOtherRowWithId(items, id);
      }
    }
  }

  lemma {:induction false} CountZero(items: seq<Item>, id: int)
    requires forall k :: 0 <= k < |items| ==> items[k].id != id
    ensures CountId(items, id) == 0
  {
    if items != [] {
      CountZero(items[1..], id);
    }
  }

  lemma NoOtherRowWithId(items: seq<Item>, id: int)
    requires DistinctIds(items) && items != [] && items[0].id == id
    ensures CountId(items[1..], id) == 0
  {
    forall k | 0 <= k < |items| - 1 ensures items[1..][k].id != id {
      assert items[1..][k] == items[k + 1];
    }
    CountZero(items[1..], id);
  }

  /** With distinct ids, removing from two or more rows leaves at least one. */
  lemma RemoveKeepsARow(items: seq<Item>, id: int)
    requires DistinctIds(items) && |items| >= 2
    ensures |Without(items, id)| >= 1
  {
    CountAtMostOne(items, id);
  }

  /** Ids are not checked for uniqueness: two rows sharing an id are both
      dropped, so the list can become empty despite the length guard. */
  lemma RemoveWithSharedIdEmptiesList()
    ensures Without([BlankItem(7), BlankItem(7)], 7) == []
  {
    assert [BlankItem(7), BlankItem(7)][1..] == [BlankItem(7)];
    assert [BlankItem(7)][1..] == [];
  }

  /** Column total as `calculateTotals` sums it: `Number(x) || 0` per row. */
  function Total(items: seq<Item>, side: Side): real
  {
    if items == [] then 0.0
    else Total(items[..|items| - 1], side) + NumberOrZero(AmountCell(items[|items| - 1], side))
  }

  lemma TotalSingleton(x: Item, side: Side)
    ensures Total([x], side) == NumberOrZero(AmountCell(x, side))
  {
    assert [x][..0] == [];
  }

  lemma TotalPair(x: Item, y: Item, side: Side)
    ensures Total([x, y], side) == NumberOrZero(AmountCell(x, side)) + NumberOrZero(AmountCell(y, side))
  {
    assert [x, y][..1] == [x];
    TotalSingleton(x, side);
  }

  lemma TotalTriple(x: Item, y: Item, z: Item, side: Side)
    ensures Total([x, y, z], side)
         == NumberOrZero(AmountCell(x, side)) + NumberOrZero(AmountCell(y, side)) + NumberOrZero(AmountCell(z, side))
  {
    assert [x, y, z][..2] == [x, y];
    TotalPair(x, y, side);
  }

  lemma {:induction false} TotalAppend(a: seq<Item>, b: seq<Item>, side: Side)
    ensures Total(a + b, side) == Total(a, side) + Total(b, side)
    decreases |b|
  {
    if b == [] {
      assert a + b == a;
    } else {
      var n := |b|;
      assert (a + b)[..|a + b| - 1] == a + b[..n - 1];
      TotalAppend(a, b[..n - 1], side);
    }
  }

  /** A new blank row leaves both totals unchanged. */
  lemma AddBlankKeepsTotals(items: seq<Item>, id: int, side: Side)
    ensures Total(items + [BlankItem(id)], side) == Total(items, side)
  {
    TotalAppend(items, [BlankItem(id)], side);
    assert [BlankItem(id)][..0] == [];
  }

  /** Editing a row's account or description leaves both totals unchanged. */
  lemma {:induction false} TextEditKeepsTotals(items: seq<Item>, id: int, f: Field, v: string, side: Side)
    requires f == AccountField || f == DescriptionField
    ensures Total(UpdateRows(items, id, f, v), side) == Total(items, side)
  {
    if items != [] {
      var n := |items|;
      var r := UpdateRows(items, id, f, v);
      assert r[..n - 1] == UpdateRows(items[..n - 1], id, f, v);
      TextEditKeepsTotals(items[..n - 1], id, f, v, side);
      assert Get(r[n - 1], AmountField(side)) == Get(items[n - 1], AmountField(side));
    }
  }

  /** `e.target.value && Number(e.target.value) > 0`: typing this into one
      amount cell clears the other. */
  predicate ClearsOpposite(v: string)
  {
    v != "" && Positive(Text(v))
  }

  /** The amount cell's onChange, with the two row updates applied one after
      the other: the typed text is stored and, when it is positive, the other
      side of the same row is emptied. */
  function AmountChange(items: seq<Item>, id: int, side: Side, v: string): (r: seq<Item>)
    ensures |r| == |items|
    ensures forall i :: 0 <= i < |items| && items[i].id != id ==> r[i] == items[i]
    ensures forall i :: 0 <= i < |items| && items[i].id == id ==>
              && r[i].id == id
              && r[i].account == items[i].account
              && r[i].description == items[i].description
              && AmountCell(r[i], side) == Text(v)
              && AmountCell(r[i], Opposite(side))
                 == (if ClearsOpposite(v) then Blank else AmountCell(items[i], Opposite(side)))
  {
    var typed := UpdateRows(items, id, AmountField(side), v);
    var r := if ClearsOpposite(v) then UpdateRows(typed, id, AmountField(Opposite(side)), "") else typed;
    assert forall i :: 0 <= i < |items| && items[i].id == id ==>
      Get(r[i], AccountField) == Get(items[i], AccountField)
      && Get(r[i], DescriptionField) == Get(items[i], DescriptionField)
      && Get(r[i], AmountField(side)) == Text(v)
      && Get(r[i], AmountField(Opposite(side)))
         == (if ClearsOpposite(v) then Blank else Get(items[i], AmountField(Opposite(side))));
    r
  }

  /** After a positive amount is typed on one side, that row cannot be
      rejected for having both sides positive. */
  lemma PositiveEntryExcludesBothPositive(items: seq<Item>, id: int, side: Side, v: string, i: int)
    requires ClearsOpposite(v) && 0 <= i < |items| && items[i].id == id
    ensures var r := AmountChange(items, id, side, v);
            Positive(AmountCell(r[i], side)) && !Positive(AmountCell(r[i], Opposite(side)))
  {
  }

  /** The onChange as the source writes it: both `updateItem` calls map the
      same `items` snapshot, and the second `setItems` replaces the first. */
  function AmountChangeAsWritten(items: seq<Item>, id: int, side: Side, v: string): (r: seq<Item>)
    ensures |r| == |items|
  {
    if ClearsOpposite(v) then UpdateRows(items, id, AmountField(Opposite(side)), "")
    else UpdateRows(items, id, AmountField(side), v)
  }

  /** As written, a positive amount never reaches the row: the cell keeps its
      old content and only the other side is emptied. */
  lemma AsWrittenDropsPositiveAmount(items: seq<Item>, id: int, side: Side, v: string, i: int)
    requires ClearsOpposite(v) && 0 <= i < |items| && items[i].id == id
    ensures var r := AmountChangeAsWritten(items, id, side, v);
            AmountCell(r[i], side) == AmountCell(items[i], side) && AmountCell(r[i], Opposite(side)) == Blank
  {
    var r := AmountChangeAsWritten(items, id, side, v);
    assert Get(r[i], AmountField(side)) == Get(items[i], AmountField(side));
    assert Get(r[i], AmountField(Opposite(side))) == Blank;
  }

  /** Typing "100" as the debit of a blank row: the corrected handler stores
      it, the handler as written leaves the debit empty. */
  lemma TypedDebitExample()
    ensures AmountChange([BlankItem(1)], 1, Debit, "100")[0].debit == Text("100")
    ensures AmountChangeAsWritten([BlankItem(1)], 1, Debit, "100")[0].debit == Blank
  {
    assert NatText(100) == "100";
    NatRoundTrip(100);
    assert ClearsOpposite("100");
    AsWrittenDropsPositiveAmount([BlankItem(1)], 1, Debit, "100", 0);
  }

  /** The row check: a row is rejected when its account is empty, when both
      amounts are falsy, or when both parse to a positive number. */
  predicate RowValid(it: Item)
  {
    !(it.account == "" || (!Truthy(it.debit) && !Truthy(it.credit)) || (Positive(it.debit) && Positive(it.credit)))
  }

  /** A row with an account and exactly one positive side passes. */
  lemma ExactlyOnePositiveIsValid(it: Item)
    requires it.account != "" && Positive(it.debit) != Positive(it.credit)
    ensures RowValid(it)
  {
    PositiveIsTruthyAndCounted(it.debit);
    PositiveIsTruthyAndCounted(it.credit);
  }

  predicate AllRowsValid(items: seq<Item>)
  {
    forall i :: 0 <= i < |items| ==> RowValid(items[i])
  }

  predicate HeaderFilled(date: string, voucherNumber: string, description: string)
  {
    date != "" && voucherNumber != "" && description != ""
  }

  function Abs(x: real): (r: real)
    ensures r >= 0.0 && (r == x || r == -x)
  {
    if x < 0.0 then -x else x
  }

  const Epsilon: real := 0.001

  /** Submit rejects when `Math.abs(debitTotal - creditTotal) > 0.001`. */
  predicate OutOfBalance(debitTotal: real, creditTotal: real)
  {
    Abs(debitTotal - creditTotal) > Epsilon
  }

  /** The indicator under the table shows "balanced" when the difference
      is below 0.001. */
  predicate IndicatorBalanced(debitTotal: real, creditTotal: real)
  {
    Abs(debitTotal - creditTotal) < Epsilon
  }

  /** The indicator and the submit check agree except at a difference of
      exactly 0.001, where the form saves while showing "unbalanced". */
  lemma IndicatorAgreesWithSubmit(d: real, c: real)
    ensures Abs(d - c) != Epsilon ==> (IndicatorBalanced(d, c) <==> !OutOfBalance(d, c))
    ensures Abs(d - c) == Epsilon ==> !IndicatorBalanced(d, c) && !OutOfBalance(d, c)
  {
  }

  datatype SubmitError = MissingHeaderField | InvalidEntry | Unbalanced

  datatype Outcome = Saved | Rejected(error: SubmitError)

  /** The submit gate, checks in the source's order. */
  function Validate(date: string, voucherNumber: string, description: string, items: seq<Item>): Outcome
  {
    if !HeaderFilled(date, voucherNumber, description) then Rejected(MissingHeaderField)
    else if !AllRowsValid(items) then Rejected(InvalidEntry)
    else if OutOfBalance(Total(items, Debit), Total(items, Credit)) then Rejected(Unbalanced)
    else Saved
  }

  /** The text `setError` receives; the error box shows only when it is non-empty. */
  function Message(o: Outcome): (m: string)
    ensures m == "" <==> o == Saved
  {
    match o
    case Saved => ""
    case Rejected(MissingHeaderField) => "请填写所有必填字段"
    case Rejected(InvalidEntry) => "每个明细行必须选择科目，且借贷方只能填写一项"
    case Rejected(Unbalanced) => "借方合计必须等于贷方合计"
  }

  /** A draft with all header fields, every row naming an account with exactly
      one positive side, and debits equal to credits within 0.001 is saved. */
  lemma WellFormedDraftIsSaved(date: string, voucherNumber: string, description: string, items: seq<Item>)
    requires HeaderFilled(date, voucherNumber, description)
    requires forall i :: 0 <= i < |items| ==>
               items[i].account != "" && Positive(items[i].debit) != Positive(items[i].credit)
    requires !OutOfBalance(Total(items, Debit), Total(items, Credit))
    ensures Validate(date, voucherNumber, description, items) == Saved
  {
    forall i | 0 <= i < |items| ensures RowValid(items[i]) {
      ExactlyOnePositiveIsValid(items[i]);
    }
  }

  /** Rows are checked before the balance: a draft with an invalid row is
      rejected for the row even when it is also out of balance. */
  lemma RowsCheckedBeforeBalance(date: string, voucherNumber: string, description: string, items: seq<Item>, i: int)
    requires HeaderFilled(date, voucherNumber, description)
    requires 0 <= i < |items| && !RowValid(items[i])
    ensures Validate(date, voucherNumber, description, items) == Rejected(InvalidEntry)
  {
  }

  /** Both amounts positive in one row: rejected as an invalid row. */
  lemma BothPositiveRejected(date: string, voucherNumber: string, description: string, items: seq<Item>, i: int)
    requires HeaderFilled(date, voucherNumber, description)
    requires 0 <= i < |items| && Positive(items[i].debit) && Positive(items[i].credit)
    ensures Validate(date, voucherNumber, description, items) == Rejected(InvalidEntry)
  {
  }

  /** Only "both falsy" is caught: a row whose debit is the text "0" passes
      the row check, so a voucher of zero amounts is saved. */
  lemma ZeroTextRowIsSaved()
    ensures Validate("2023-04-10", "PZ202304009", "零金额", [Item(1, "1001 固定资产", "", Text("0"), Blank)]) == Saved
  {
    ZeroTextIsTruthyButNotPositive();
    var x := Item(1, "1001 固定资产", "", Text("0"), Blank);
    TotalSingleton(x, Debit);
    TotalSingleton(x, Credit);
    assert Total([x], Debit) == 0.0 && Total([x], Credit) == 0.0;
  }

  /** Worked draft: 10000 debit against 10000 credit is saved. */
  lemma TwoLineDraftIsSaved()
    ensures Validate("2023-04-10", "PZ202304001", "购买办公设备",
                     [Item(1, "1001", "", Num(10000.0), Num(0.0)), Item(2, "1002", "", Num(0.0), Num(10000.0))]) == Saved
  {
    var x, y := Item(1, "1001", "", Num(10000.0), Num(0.0)), Item(2, "1002", "", Num(0.0), Num(10000.0));
    assert RowValid(x) && RowValid(y);
    TotalPair(x, y, Debit);
    TotalPair(x, y, Credit);
    assert Total([x, y], Debit) == 10000.0 && Total([x, y], Credit) == 10000.0;
  }

  /** Worked draft: 25000 debit against 2500 + 22500 credit is saved. */
  lemma SplitCreditDraftIsSaved()
    ensures Validate("2023-04-20", "PZ202304003", "支付员工工资",
                     [Item(5, "5001", "", Num(25000.0), Num(0.0)), Item(6, "2001", "", Num(0.0), Num(2500.0)),
                      Item(7, "1002", "", Num(0.0), Num(22500.0))]) == Saved
  {
    var x, y, z := Item(5, "5001", "", Num(25000.0), Num(0.0)), Item(6, "2001", "", Num(0.0), Num(2500.0)),
                   Item(7, "1002", "", Num(0.0), Num(22500.0));
    assert RowValid(x) && RowValid(y) && RowValid(z);
    TotalTriple(x, y, z, Debit);
    TotalTriple(x, y, z, Credit);
    assert Total([x, y, z], Debit) == 25000.0 && Total([x, y, z], Credit) == 25000.0;
  }

  /** Worked draft: typed "100" against typed "50" is rejected as unbalanced. */
  lemma UnbalancedDraftIsRejected()
    ensures Validate("2023-04-25", "PZ202304004", "测试",
                     [Item(1, "1001", "", Text("100"), Blank), Item(2, "1002", "", Blank, Text("50"))]) == Rejected(Unbalanced)
  {
    var x, y := Item(1, "1001", "", Text("100"), Blank), Item(2, "1002", "", Blank, Text("50"));
    assert NatText(100) == "100" && NatText(50) == "50";
    NatRoundTrip(100);
    NatRoundTrip(50);
    assert RowValid(x) && RowValid(y);
    assert NumberOrZero(x.credit) == 0.0 && NumberOrZero(y.credit) == 50.0;
    assert NumberOrZero(x.debit) == 100.0 && NumberOrZero(y.debit) == 0.0;
    TotalPair(x, y, Debit);
    TotalPair(x, y, Credit);
    assert Total([x, y], Debit) == 100.0 && Total([x, y], Credit) == 50.0;
  }

  /** Worked draft: a single row without an account is an invalid row. */
  lemma MissingAccountIsRejected()
    ensures Validate("2023-04-25", "PZ202304005", "测试", [Item(1, "", "", Num(100.0), Num(0.0))]) == Rejected(InvalidEntry)
  {
    assert !RowValid([Item(1, "", "", Num(100.0), Num(0.0))][0]);
  }

  /** A stored line as the editor receives it when a voucher is opened. */
  function FromStored(li: VoucherList.LineItem): Item
  {
    Item(li.id, li.account, li.description, Num(li.debit), Num(li.credit))
  }

  function FromStoredItems(lines: seq<VoucherList.LineItem>): (r: seq<Item>)
    ensures |r| == |lines|
    ensures forall i :: 0 <= i < |lines| ==> r[i] == FromStored(lines[i])
  {
    seq(|lines|, i requires 0 <= i < |lines| => FromStored(lines[i]))
  }

  /** Opening a stored voucher shows the same totals the list shows for it. */
  lemma EditTotalsMatchList(v: VoucherList.Voucher, side: Side)
    ensures Total(FromStoredItems(v.items), side) == VoucherList.VoucherTotal(v, side)
  {
    StoredTotal(v.items, side);
    VoucherList.VoucherTotalIsSum(v, side);
  }

  lemma {:induction false} StoredTotal(lines: seq<VoucherList.LineItem>, side: Side)
    ensures Total(FromStoredItems(lines), side) == VoucherList.Sum(lines, side)
  {
    if lines != [] {
      var n := |lines|;
      assert FromStoredItems(lines)[..n - 1] == FromStoredItems(lines[..n - 1]);
      StoredTotal(lines[..n - 1], side);
      assert lines == lines[..n - 1] + [lines[n - 1]];
      VoucherList.SumAppend(lines[..n - 1], [lines[n - 1]], side);
      assert [lines[n - 1]][1..] == [];
    }
  }

  /** Every sample voucher, opened for editing and submitted unchanged, is saved. */
  lemma SampleVouchersAreSaved()
    ensures forall v :: v in VoucherList.SampleVouchers ==>
              Validate(v.date, v.voucherNumber, v.description, FromStoredItems(v.items)) == Saved
  {
    VoucherList.SampleVouchersBalance();
    forall v | v in VoucherList.SampleVouchers
      ensures Validate(v.date, v.voucherNumber, v.description, FromStoredItems(v.items)) == Saved
    {
      EditTotalsMatchList(v, Debit);
      EditTotalsMatchList(v, Credit);
      var items := FromStoredItems(v.items);
      forall i | 0 <= i < |items| ensures RowValid(items[i]) {
        assert items[i] == FromStored(v.items[i]);
      }
    }
  }

  /** The editor's state: header fields, rows, and the error text. */
  class Editor {
    var date: string
    var voucherNumber: string
    var description: string
    var items: seq<Item>
    var error: string
    /** `isEditing`: opened on an existing voucher. */
    const editing: bool

    /** A new form starts with one blank row; an edit form with the
        voucher's own header and rows. */
    constructor (voucher: Option<VoucherList.Voucher>, newId: int)
      ensures editing == voucher.Some? && error == ""
      ensures voucher.None? ==>
                date == "" && voucherNumber == "" && description == "" && items == [BlankItem(newId)]
      ensures voucher.Some? ==>
                && date == voucher.value.date
                && voucherNumber == voucher.value.voucherNumber
                && description == voucher.value.description
                && items == FromStoredItems(voucher.value.items)
    {
      editing := voucher.Some?;
      match voucher {
        case None =>
          date, voucherNumber, description := "", "", "";
          items := [BlankItem(newId)];
        case Some(v) =>
          date, voucherNumber, description := v.date, v.voucherNumber, v.description;
          items := FromStoredItems(v.items);
      }
      error := "";
    }

    method SetDate(d: string)
      modifies this`date
      ensures date == d
    {
      date := d;
    }

    method SetVoucherNumber(n: string)
      modifies this`voucherNumber
      ensures voucherNumber == n
    {
      voucherNumber := n;
    }

    method SetDescription(d: string)
      modifies this`description
      ensures description == d
    {
      description := d;
    }

    /** Appends a blank row; the totals do not move. */
    method AddItem(newId: int)
      modifies this`items
      ensures items == old(items) + [BlankItem(newId)]
      ensures Total(items, Debit) == old(Total(items, Debit))
      ensures Total(items, Credit) == old(Total(items, Credit))
    {
      AddBlankKeepsTotals(items, newId, Debit);
      AddBlankKeepsTotals(items, newId, Credit);
      items := items + [BlankItem(newId)];
    }

    /** Refuses on a list of one row or fewer; otherwise drops the rows with
        that id and keeps the rest in order. */
    method RemoveItem(id: int) returns (refused: bool)
      modifies this`items
      ensures refused <==> |old(items)| <= 1
      ensures refused ==> items == old(items)
      ensures !refused ==> items == Without(old(items), id)
      ensures !refused && DistinctIds(old(items)) ==> |items| >= 1
    {
      if |items| <= 1 {
        return true;
      }
      if DistinctIds(items) {
        RemoveKeepsARow(items, id);
      }
      items := Without(items, id);
      refused := false;
    }

    method UpdateItem(id: int, f: Field, v: string)
      modifies this`items
      ensures items == UpdateRows(old(items), id, f, v)
    {
      items := UpdateRows(items, id, f, v);
    }

    /** Typing `v` into the `side` amount cell of row `id`. */
    method OnAmountChange(id: int, side: Side, v: string)
      modifies this`items
      ensures items == AmountChange(old(items), id, side, v)
    {
      UpdateItem(id, AmountField(side), v);
      if v != "" && Positive(Text(v)) {
        UpdateItem(id, AmountField(Opposite(side)), "");
      }
    }

    /** `calculateTotals`: one pass over the rows. */
    method CalculateTotals() returns (debitTotal: real, creditTotal: real)
      ensures debitTotal == Total(items, Debit)
      ensures creditTotal == Total(items, Credit)
    {
      debitTotal, creditTotal := 0.0, 0.0;
      for i := 0 to |items|
        invariant debitTotal == Total(items[..i], Debit)
        invariant creditTotal == Total(items[..i], Credit)
      {
        assert items[..i + 1][..i] == items[..i];
        debitTotal := debitTotal + NumberOrZero(items[i].debit);
        creditTotal := creditTotal + NumberOrZero(items[i].credit);
      }
      assert items[..|items|] == items;
    }

    /** `handleSubmit`: header, then each row in order, then the balance.
        The first failing check sets its message and nothing is saved;
        when all pass the error is cleared and the voucher is saved. */
    method HandleSubmit() returns (saved: bool)
      modifies this`error
      ensures saved <==> Validate(date, voucherNumber, description, items) == Saved
      ensures error == Message(Validate(date, voucherNumber, description, items))
      ensures saved <==> HeaderFilled(date, voucherNumber, description) && AllRowsValid(items)
                         && !OutOfBalance(Total(items, Debit), Total(items, Credit))
    {
      if date == "" || voucherNumber == "" || description == "" {
        error := Message(Rejected(MissingHeaderField));
        return false;
      }
      for i := 0 to |items|
        invariant forall k :: 0 <= k < i ==> RowValid(items[k])
      {
        var it := items[i];
        if it.account == "" || (!Truthy(it.debit) && !Truthy(it.credit)) || (Positive(it.debit) && Positive(it.credit)) {
          error := Message(Rejected(InvalidEntry));
          return false;
        }
      }
      var debitTotal, creditTotal := CalculateTotals();
      if Abs(debitTotal - creditTotal) > Epsilon {
        error := Message(Rejected(Unbalanced));
        return false;
      }
      error := "";
      saved := true;
    }
  }
}
