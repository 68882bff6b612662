/** The chart-of-accounts list: a case-insensitive search on code or name,
    combined with an exact-match account type selector where "全部" (all)
    selects every type. */
module AccountList {
  import opened Seqs

  datatype Account = Account(id: int, code: string, name: string, kind: string)

  /** The selector value that disables the type filter. */
  const AllTypes: string := "全部"

  const AccountTypes: seq<string> := ["全部", "资产", "负债", "所有者权益", "收入", "费用"]

  const SampleAccounts: seq<Account> := [
    Account(1, "1001", "固定资产", "资产"),
    Account(2, "1002", "银行存款", "资产"),
    Account(3, "2001", "应交税金", "负债"),
    Account(4, "5001", "工资费用", "费用"),
    Account(5, "6001", "主营业务收入", "收入"),
    Account(6, "4001", "实收资本", "所有者权益"),
    Account(7, "1003", "应收账款", "资产"),
    Account(8, "2002", "应付账款", "负债"),
    Account(9, "5002", "办公费用", "费用"),
    Account(10, "6002", "其他业务收入", "收入")
  ]

  /** Every sample account can be reached through one of the type options. */
  lemma SampleTypesSelectable()
    ensures forall a :: a in SampleAccounts ==> a.kind in AccountTypes[1..] && a.kind != AllTypes
  {
  }

  predicate IsUpper(c: char) { 'A' <= c <= 'Z' }

  function LowerChar(c: char): (l: char)
    ensures !IsUpper(l)
    ensures IsUpper(c) ==> l as int == c as int + 32
    ensures !IsUpper(c) ==> l == c
  {
    if IsUpper(c) then (c as int + 32) as char else c
  }

  /** `toLowerCase()` on the Latin letters A-Z; every other character,
      Chinese text and digits included, is kept. */
  function Lower(s: string): (r: string)
    ensures |r| == |s|
    ensures forall i :: 0 <= i < |r| ==> !IsUpper(r[i])
  {
    seq(|s|, i requires 0 <= i < |s| => LowerChar(s[i]))
  }

  lemma LowerIdempotent(s: string)
    ensures Lower(Lower(s)) == Lower(s)
  {
  }

  /** `s.includes(t)`: `t` occurs in `s` at some position. */
  predicate Includes(s: string, t: string)
  {
    exists i :: 0 <= i <= |s| && OccursAt(s, t, i)
  }

  predicate OccursAt(s: string, t: string, i: nat)
  {
    i + |t| <= |s| && s[i..i + |t|] == t
  }

  lemma IncludesEmpty(s: string)
    ensures Includes(s, "")
  {
    assert OccursAt(s, "", 0);
  }

  predicate MatchesSearch(a: Account, term: string)
  {
    Includes(Lower(a.code), Lower(term)) || Includes(Lower(a.name), Lower(term))
  }

  predicate MatchesType(a: Account, selected: string)
  {
    selected == AllTypes || a.kind == selected
  }

  /** The predicate handed to `filter`. */
  predicate Keep(a: Account, term: string, selected: string)
  {
    MatchesSearch(a, term) && MatchesType(a, selected)
  }

  /** `filteredAccounts`: the accounts that pass, in their original order. */
  function Filter(accounts: seq<Account>, term: string, selected: string): (r: seq<Account>)
    ensures forall a :: a in r <==> a in accounts && Keep(a, term, selected)
    ensures IsSubsequence(r, accounts)
    ensures |r| <= |accounts|
  {
    if accounts == [] then []
    else
      var rest := Filter(accounts[1..], term, selected);
      if Keep(accounts[0], term, selected) then
        assert ([accounts[0]] + rest)[1..] == rest;
        [accounts[0]] + rest
      else rest
  }

  /** `filter` keeps every copy of a matching account and no copy of any
      other: the result's multiplicities are those of the list, or 0. */
  lemma {:induction false} FilterKeepsEveryCopy(accounts: seq<Account>, term: string, selected: string)
    ensures forall x :: multiset(Filter(accounts, term, selected))[x]
                        == if Keep(x, term, selected) then multiset(accounts)[x] else 0
  {
    if accounts != [] {
      FilterKeepsEveryCopy(accounts[1..], term, selected);
      assert accounts == [accounts[0]] + accounts[1..];
    }
  }

  /** Filtering the filtered list with the same criteria changes nothing. */
  lemma {:induction false} FilterIdempotent(accounts: seq<Account>, term: string, selected: string)
    ensures Filter(Filter(accounts, term, selected), term, selected) == Filter(accounts, term, selected)
  {
    if accounts != [] {
      var rest := Filter(accounts[1..], term, selected);
      FilterIdempotent(accounts[1..], term, selected);
      if Keep(accounts[0], term, selected) {
        assert ([accounts[0]] + rest)[1..] == rest;
      }
    }
  }

  /** When every account passes, the whole list is shown in order. */
  lemma {:induction false} FilterKeepsAll(accounts: seq<Account>, term: string, selected: string)
    requires forall a :: a in accounts ==> Keep(a, term, selected)
    ensures Filter(accounts, term, selected) == accounts
  {
    if accounts != [] {
      assert accounts[0] in accounts;
      assert forall a :: a in accounts[1..] ==> a in accounts;
      FilterKeepsAll(accounts[1..], term, selected);
      assert [accounts[0]] + accounts[1..] == accounts;
    }
  }

  /** An empty search term keeps exactly the accounts of the selected type. */
  lemma EmptySearchMatchesTypeOnly(a: Account, selected: string)
    ensures Keep(a, "", selected) <==> MatchesType(a, selected)
  {
    assert Lower("") == "";
    IncludesEmpty(Lower(a.code));
  }

  /** The initial screen (no search, "全部") lists every account, in order. */
  lemma InitialFilterShowsAll(accounts: seq<Account>)
    ensures Filter(accounts, "", AllTypes) == accounts
  {
    forall a | a in accounts ensures Keep(a, "", AllTypes) {
      EmptySearchMatchesTypeOnly(a, AllTypes);
    }
    FilterKeepsAll(accounts, "", AllTypes);
  }

  /** "全部" turns the type test off; any other selection is an exact
      comparison with the account's type. */
  lemma TypeSelection(a: Account, term: string, selected: string)
    ensures Keep(a, term, AllTypes) <==> MatchesSearch(a, term)
    ensures selected != AllTypes ==> (Keep(a, term, selected) <==> MatchesSearch(a, term) && a.kind == selected)
  {
  }

  /** Search terms that differ only in letter case give the same result. */
  lemma {:induction false} FilterIgnoresCase(accounts: seq<Account>, t1: string, t2: string, selected: string)
    requires Lower(t1) == Lower(t2)
    ensures Filter(accounts, t1, selected) == Filter(accounts, t2, selected)
  {
    if accounts != [] {
      FilterIgnoresCase(accounts[1..], t1, t2, selected);
    }
  }

  /** Searching for "ABC" is searching for "abc". */
  lemma UpperCaseSearchExample(accounts: seq<Account>, selected: string)
    ensures Filter(accounts, "ABC", selected) == Filter(accounts, "abc", selected)
  {
    assert Lower("ABC") == "abc";
    FilterIgnoresCase(accounts, "ABC", "abc", selected);
  }
}
