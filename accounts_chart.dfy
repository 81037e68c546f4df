/** The chart: the owned list of top-level accounts and the id index that
    every query rebuilds from it. */
module Charts {
  import opened Wrappers
  import opened Json
  import opened Accounts
  import opened AccountDocuments

  /** The ids carried by a sequence of accounts. */
  function Ids(s: seq<Account>): set<string>
  {
    set x | x in s :: x.id
  }

  /** The order in which the index is filled: each root, then that root's
      sub-tree walk, root after root. */
  function IndexOrder(tops: seq<Account>): seq<Account>
  {
    if |tops| == 0 then []
    else IndexOrder(tops[..|tops| - 1]) + [tops[|tops| - 1]] + SubTree(tops[|tops| - 1])
  }

  /** `m` after inserting the accounts of `s` one after another under their
      ids; a later insertion replaces an earlier one with the same id. */
  function InsertAll(m: map<string, Account>, s: seq<Account>): map<string, Account>
  {
    if |s| == 0 then m
    else InsertAll(m, s[..|s| - 1])[s[|s| - 1].id := s[|s| - 1]]
  }

  /** The value of `get_account_map` for a chart with these roots. */
  function AccountMap(tops: seq<Account>): map<string, Account>
  {
    InsertAll(map[], IndexOrder(tops))
  }

  /** `x` is a root or lies below one. */
  ghost predicate Reachable(x: Account, tops: seq<Account>)
  {
    exists i :: 0 <= i < |tops| && (tops[i] == x || IsDescendant(x, tops[i]))
  }

  lemma InsertAllSnoc(m: map<string, Account>, s: seq<Account>, x: Account)
    ensures InsertAll(m, s + [x]) == InsertAll(m, s)[x.id := x]
  {
    assert (s + [x])[..|s|] == s;
  }

  lemma {:induction false} InsertAllAppend(m: map<string, Account>, s: seq<Account>, t: seq<Account>)
    ensures InsertAll(m, s + t) == InsertAll(InsertAll(m, s), t)
    decreases |t|
  {
    if |t| == 0 {
      assert s + t == s;
    } else {
      var n := |t| - 1;
      assert s + t == (s + t[..n]) + [t[n]];
      InsertAllSnoc(m, s + t[..n], t[n]);
      InsertAllAppend(m, s, t[..n]);
    }
  }

  lemma IdsSnoc(s: seq<Account>, x: Account)
    ensures Ids(s + [x]) == Ids(s) + {x.id}
  {
    assert forall y :: y in s + [x] <==> y in s || y == x;
  }

  /** Inserting adds exactly the ids of the inserted accounts to the keys. */
  lemma {:induction false} InsertAllKeys(m: map<string, Account>, s: seq<Account>)
    ensures InsertAll(m, s).Keys == m.Keys + Ids(s)
    decreases |s|
  {
    if |s| == 0 {
      assert Ids(s) == {};
    } else {
      var n := |s| - 1;
      assert s == s[..n] + [s[n]];
      InsertAllKeys(m, s[..n]);
      IdsSnoc(s[..n], s[n]);
    }
  }

  /** Last write wins: the entry for an id is the last account inserted with
      that id. */
  lemma {:induction false} InsertAllLastWins(m: map<string, Account>, s: seq<Account>, i: nat)
    requires i < |s|
    requires forall j :: i < j < |s| ==> s[j].id != s[i].id
    ensures s[i].id in InsertAll(m, s) && InsertAll(m, s)[s[i].id] == s[i]
    decreases |s|
  {
    var n := |s| - 1;
    if i < n {
      InsertAllLastWins(m, s[..n], i);
    }
  }

  /** The last position in `s` that carries `id`. */
  lemma {:induction false} LastWithId(s: seq<Account>, id: string) returns (i: nat)
    requires id in Ids(s)
    ensures i < |s| && s[i].id == id
    ensures forall j :: i < j < |s| ==> s[j].id != id
    decreases |s|
  {
    var n := |s| - 1;
    if s[n].id == id {
      i := n;
    } else {
      assert s == s[..n] + [s[n]];
      IdsSnoc(s[..n], s[n]);
      i := LastWithId(s[..n], id);
    }
  }

  /** The index's keys are the ids met in the insertion order. */
  lemma AccountMapKeys(tops: seq<Account>)
    ensures AccountMap(tops).Keys == Ids(IndexOrder(tops))
  {
    InsertAllKeys(map[], IndexOrder(tops));
  }

  /** Each id of the index maps to the account inserted last with that id,
      and so to an account that carries that id. */
  lemma AccountMapEntry(tops: seq<Account>, id: string)
    requires id in AccountMap(tops)
    ensures var order := IndexOrder(tops);
            exists i :: 0 <= i < |order| && order[i] == AccountMap(tops)[id] && order[i].id == id &&
              forall j :: i < j < |order| ==> order[j].id != id
    ensures AccountMap(tops)[id].id == id
  {
    var order := IndexOrder(tops);
    AccountMapKeys(tops);
    var i := LastWithId(order, id);
    InsertAllLastWins(map[], order, i);
  }

  lemma {:induction false} IndexOrderLength(tops: seq<Account>)
    ensures |IndexOrder(tops)| == NodeCountOf(tops)
  {
    if |tops| > 0 {
      IndexOrderLength(tops[..|tops| - 1]);
      SubTreeLength(tops[|tops| - 1]);
    }
  }

  /** The insertion order visits exactly the roots and their descendants. */
  lemma {:induction false} IndexOrderMembers(tops: seq<Account>, x: Account)
    ensures x in IndexOrder(tops) <==> Reachable(x, tops)
  {
    if |tops| > 0 {
      var n := |tops| - 1;
      var init := tops[..n];
      IndexOrderMembers(init, x);
      SubTreeMembers(tops[n], x);
      if Reachable(x, init) {
        var i :| 0 <= i < |init| && (init[i] == x || IsDescendant(x, init[i]));
        assert tops[i] == init[i];
      }
      if Reachable(x, tops) {
        var i :| 0 <= i < |tops| && (tops[i] == x || IsDescendant(x, tops[i]));
        if i < n {
          assert init[i] == tops[i];
        }
      }
    }
  }

  /** A sequence carries no more distinct ids than it has elements. */
  lemma {:induction false} IdsBound(s: seq<Account>)
    ensures |Ids(s)| <= |s|
    decreases |s|
  {
    if |s| == 0 {
      assert Ids(s) == {};
    } else {
      var n := |s| - 1;
      assert s == s[..n] + [s[n]];
      IdsSnoc(s[..n], s[n]);
      IdsBound(s[..n]);
    }
  }

  /** The index holds one entry per distinct id reachable from the roots, so
      never more entries than the chart has nodes. */
  lemma AccountMapSize(tops: seq<Account>)
    ensures |AccountMap(tops)| == |Ids(IndexOrder(tops))|
    ensures |AccountMap(tops)| <= NodeCountOf(tops)
  {
    AccountMapKeys(tops);
    assert |AccountMap(tops)| == |AccountMap(tops).Keys|;
    IdsBound(IndexOrder(tops));
    IndexOrderLength(tops);
  }

  /** An id is in the index exactly when some root or descendant carries it. */
  lemma AccountMapDomain(tops: seq<Account>, id: string)
    ensures id in AccountMap(tops) <==> exists x :: Reachable(x, tops) && x.id == id
  {
    AccountMapKeys(tops);
    if id in AccountMap(tops) {
      var x :| x in IndexOrder(tops) && x.id == id;
      IndexOrderMembers(tops, x);
    }
    if exists x :: Reachable(x, tops) && x.id == id {
      var x :| Reachable(x, tops) && x.id == id;
      IndexOrderMembers(tops, x);
    }
  }

  /** Adding a root updates the index as the source's loop does for it: the
      root is inserted, then its sub-tree walk, over the previous index. A
      root's entry is therefore replaced by a descendant with the same id,
      and a later root replaces an earlier one. */
  lemma AddRootAccountMap(tops: seq<Account>, r: Account)
    ensures AccountMap(tops + [r]) == InsertAll(AccountMap(tops)[r.id := r], SubTree(r))
  {
    assert (tops + [r])[..|tops|] == tops;
    InsertAllAppend(map[], IndexOrder(tops) + [r], SubTree(r));
    InsertAllSnoc(map[], IndexOrder(tops), r);
  }

  class AccountsChart {
    var topLevelAccounts: seq<Account>

    /** `AccountsChart::new`: a chart without accounts. */
    constructor ()
      ensures topLevelAccounts == []
    {
      topLevelAccounts := [];
    }

    /** `From<&JsonValue> for AccountsChart`: one top-level account per member
        of the document's `accounts`, in document order; the first account
        document that fails aborts the whole chart. */
    static method FromJson(value: JsonValue) returns (r: Result<AccountsChart, ParseError>)
      ensures r.Ok? <==> TopLevelFromJson(value).Ok?
      ensures r.Ok? ==> fresh(r.value) && r.value.topLevelAccounts == TopLevelFromJson(value).value
      ensures r.Err? ==> r.error == TopLevelFromJson(value).error
    {
      var topLevelAccounts: seq<Account> := [];
      var items := RootDocuments(value);
      for i := 0 to |items|
        invariant FromMembers(items[..i]) == Ok(topLevelAccounts)
      {
        assert items[..i + 1][..i] == items[..i];
        var accountData := AccountFromJson(items[i]);
        if accountData.Err? {
          FromMembersPrefixErr(items, i + 1);
          return Err(accountData.error);
        }
        topLevelAccounts := topLevelAccounts + [accountData.value];
      }
      assert items[..|items|] == items;
      var chart := new AccountsChart();
      chart.topLevelAccounts := topLevelAccounts;
      r := Ok(chart);
    }

    /** `add_top_level_account`: appends a root; earlier roots keep their
        order. */
    method AddTopLevelAccount(account: Account)
      modifies this
      ensures topLevelAccounts == old(topLevelAccounts) + [account]
    {
      topLevelAccounts := topLevelAccounts + [account];
    }

    /** `get_account_map`: for each root in order, insert the root and then
        every account of its sub-tree walk, each under its id. */
    method GetAccountMap() returns (mapping: map<string, Account>)
      ensures mapping == AccountMap(topLevelAccounts)
    {
      mapping := map[];
      var accountsToProcess := topLevelAccounts;
      for i := 0 to |accountsToProcess|
        invariant mapping == InsertAll(map[], IndexOrder(accountsToProcess[..i]))
      {
        var nextAccount := accountsToProcess[i];
        ghost var before := IndexOrder(accountsToProcess[..i]);
        InsertAllSnoc(map[], before, nextAccount);
        mapping := mapping[nextAccount.GetId() := nextAccount];
        var subTree := GetSubTree(nextAccount);
        ghost var inserted := before + [nextAccount];
        assert inserted + subTree[..0] == inserted;
        for j := 0 to |subTree|
          invariant mapping == InsertAll(map[], inserted + subTree[..j])
        {
          assert inserted + subTree[..j + 1] == (inserted + subTree[..j]) + [subTree[j]];
          InsertAllSnoc(map[], inserted + subTree[..j], subTree[j]);
          mapping := mapping[subTree[j].GetId() := subTree[j]];
        }
        assert accountsToProcess[..i + 1][..i] == accountsToProcess[..i];
        assert subTree[..|subTree|] == subTree;
      }
      assert accountsToProcess[..|accountsToProcess|] == accountsToProcess;
    }

    /** `get_num_accounts`: the size of the rebuilt index, that is the number
        of distinct ids reachable from the roots, at most the node count. */
    method GetNumAccounts() returns (n: nat)
      ensures n == |AccountMap(topLevelAccounts)|
      ensures n == |Ids(IndexOrder(topLevelAccounts))|
      ensures n <= NodeCountOf(topLevelAccounts)
    {
      var mapping := GetAccountMap();
      n := |mapping|;
      AccountMapSize(topLevelAccounts);
    }

    /** `get_account_by_id`: the index entry for `id`, an account carrying
        that id, or `None` when no reachable account carries it. */
    method GetAccountById(id: string) returns (r: Option<Account>)
      ensures r.Some? <==> id in AccountMap(topLevelAccounts)
      ensures r.Some? ==> r.value == AccountMap(topLevelAccounts)[id] && r.value.id == id
      ensures r.Some? <==> id in Ids(IndexOrder(topLevelAccounts))
    {
      var mapping := GetAccountMap();
      AccountMapKeys(topLevelAccounts);
      if id in mapping {
        AccountMapEntry(topLevelAccounts, id);
        r := Some(mapping[id]);
      } else {
        r := None;
      }
    }

    /** `get_account_ids`: every key of the rebuilt index exactly once, in an
        order the model leaves open, as hash-map iteration does. */
    method GetAccountIds() returns (ids: seq<string>)
      ensures forall i, j :: 0 <= i < j < |ids| ==> ids[i] != ids[j]
      ensures forall id :: id in ids <==> id in AccountMap(topLevelAccounts)
      ensures |ids| == |AccountMap(topLevelAccounts)|
    {
      var mapping := GetAccountMap();
      var keys := mapping.Keys;
      ids := [];
      while keys != {}
        invariant keys <= mapping.Keys
        invariant forall id :: id in ids <==> id in mapping.Keys && id !in keys
        invariant forall i, j :: 0 <= i < j < |ids| ==> ids[i] != ids[j]
        invariant |ids| + |keys| == |mapping.Keys|
        decreases |keys|
      {
        var k :| k in keys;
        ids := ids + [k];
        keys := keys - {k};
      }
    }
  }
}
