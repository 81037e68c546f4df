/** One node of the chart: an account with its attributes and the ordered
    list of sub-accounts it owns. */
module Accounts {
  import opened Currencies
  import opened AccountTypes
  import opened Sequences

  /** An account. Children are owned values: adding one moves it in, and
      reading them gives copies, so an account is a tree value. */
  datatype Account = Account(
    id: string,
    name: string,
    description: string,
    accountType: AccountType,
    currency: Currency,
    placeholder: bool,
    subAccounts: seq<Account>)
  {
    function GetId(): string { id }
    function GetName(): string { name }
    function GetDescription(): string { description }
    function GetAccountType(): AccountType { accountType }
    function GetCurrency(): Currency { currency }
    function IsPlaceholder(): bool { placeholder }
    function GetSubAccounts(): seq<Account> { subAccounts }

    /** `add_sub_account`: the account with `account` appended as its last
        child; every attribute and every earlier child stays as it was. */
    function AddSubAccount(account: Account): (r: Account)
      ensures r.id == id && r.name == name && r.description == description
      ensures r.accountType == accountType && r.currency == currency
      ensures r.placeholder == placeholder
      ensures |r.subAccounts| == |subAccounts| + 1
      ensures r.subAccounts[..|subAccounts|] == subAccounts
      ensures r.subAccounts[|subAccounts|] == account
    {
      this.(subAccounts := subAccounts + [account])
    }
  }

  /** `Account::new`: an account holding exactly the given attributes and no
      children; the getters read them back. */
  function New(id: string, name: string, description: string,
               accountType: AccountType, currency: Currency, placeholder: bool): (a: Account)
    ensures a.GetId() == id && a.GetName() == name && a.GetDescription() == description
    ensures a.GetAccountType() == accountType && a.GetCurrency() == currency
    ensures a.IsPlaceholder() == placeholder
    ensures a.GetSubAccounts() == []
  {
    Account(id, name, description, accountType, currency, placeholder, [])
  }

  /** Number of nodes in the tree rooted at `a`, `a` included. */
  function NodeCount(a: Account): (n: nat)
    ensures n >= 1
  {
    1 + NodeCountOf(a.subAccounts)
  }

  /** Number of nodes in a list of trees. */
  function NodeCountOf(cs: seq<Account>): (n: nat)
    ensures forall i :: 0 <= i < |cs| ==> NodeCount(cs[i]) <= n
  {
    if |cs| == 0 then 0
    else NodeCountOf(cs[..|cs| - 1]) + NodeCount(cs[|cs| - 1])
  }

  /** `d` lies strictly below `a`: it is a child of `a` or below one. */
  ghost predicate IsDescendant(d: Account, a: Account)
    decreases a
  {
    exists i :: 0 <= i < |a.subAccounts| &&
      (a.subAccounts[i] == d || IsDescendant(d, a.subAccounts[i]))
  }

  /** The value of `get_sub_tree`: for each child, left to right, the
      child's own sub-tree and then the child. */
  function SubTree(a: Account): seq<Account>
  {
    Flatten(a.subAccounts)
  }

  /** The sub-tree walk over a list of children. */
  function Flatten(cs: seq<Account>): seq<Account>
  {
    if |cs| == 0 then []
    else Flatten(cs[..|cs| - 1]) + SubTree(cs[|cs| - 1]) + [cs[|cs| - 1]]
  }

  /** `get_sub_tree`, with the source's loop over the children and its inner
      loop that pushes the child's sub-tree one account at a time. */
  method GetSubTree(a: Account) returns (accounts: seq<Account>)
    ensures accounts == SubTree(a)
    decreases a
  {
    accounts := [];
    var subs := a.GetSubAccounts();
    for i := 0 to |subs|
      invariant accounts == Flatten(subs[..i])
    {
      var account := subs[i];
      var tree := GetSubTree(account);
      for j := 0 to |tree|
        invariant accounts == Flatten(subs[..i]) + tree[..j]
      {
        accounts := accounts + [tree[j]];
      }
      accounts := accounts + [account];
      assert subs[..i + 1][..i] == subs[..i];
    }
    assert subs[..|subs|] == subs;
  }

  lemma {:induction false} FlattenAppend(xs: seq<Account>, ys: seq<Account>)
    ensures Flatten(xs + ys) == Flatten(xs) + Flatten(ys)
    decreases |ys|
  {
    if |ys| == 0 {
      assert xs + ys == xs;
    } else {
      var n := |ys| - 1;
      var init, last := ys[..n], ys[n];
      assert ys == init + [last];
      assert xs + ys == (xs + init) + [last];
      FlattenPush(xs + init, last);
      FlattenPush(init, last);
      FlattenAppend(xs, init);
      AppendAssoc(Flatten(xs), Flatten(init), SubTree(last));
      AppendAssoc(Flatten(xs), Flatten(init) + SubTree(last), [last]);
    }
  }

  lemma FlattenPush(cs: seq<Account>, c: Account)
    ensures Flatten(cs + [c]) == Flatten(cs) + SubTree(c) + [c]
  {
    assert (cs + [c])[..|cs|] == cs;
  }

  /** The walk holds one entry per strict descendant: as many as the tree has
      nodes besides the receiver, and nothing at all for a leaf. */
  lemma {:induction false} SubTreeLength(a: Account)
    ensures |SubTree(a)| == NodeCount(a) - 1
    ensures SubTree(a) == [] <==> a.subAccounts == []
    decreases a, 1
  {
    FlattenLength(a.subAccounts);
    if a.subAccounts != [] {
      assert NodeCount(a.subAccounts[0]) >= 1;
    }
  }

  lemma {:induction false} FlattenLength(cs: seq<Account>)
    ensures |Flatten(cs)| == NodeCountOf(cs)
    decreases cs, 0
  {
    if |cs| > 0 {
      FlattenLength(cs[..|cs| - 1]);
      SubTreeLength(cs[|cs| - 1]);
    }
  }

  /** Membership in the walk is exactly being a strict descendant. */
  lemma {:induction false} SubTreeMembers(a: Account, d: Account)
    ensures d in SubTree(a) <==> IsDescendant(d, a)
    decreases a, 1
  {
    FlattenMembers(a.subAccounts, d);
  }

  lemma {:induction false} FlattenMembers(cs: seq<Account>, d: Account)
    ensures d in Flatten(cs) <==>
      exists i :: 0 <= i < |cs| && (cs[i] == d || IsDescendant(d, cs[i]))
    decreases cs, 0
  {
    if |cs| > 0 {
      var n := |cs| - 1;
      var init := cs[..n];
      FlattenMembers(init, d);
      SubTreeMembers(cs[n], d);
      if d in Flatten(cs) {
        if d in Flatten(init) {
          var i :| 0 <= i < |init| && (init[i] == d || IsDescendant(d, init[i]));
          assert cs[i] == init[i];
        }
      }
      if exists i :: 0 <= i < |cs| && (cs[i] == d || IsDescendant(d, cs[i])) {
        var i :| 0 <= i < |cs| && (cs[i] == d || IsDescendant(d, cs[i]));
        if i < n {
          assert init[i] == cs[i];
        }
      }
    }
  }

  /** Every strict descendant is a strictly smaller tree. */
  lemma {:induction false} DescendantIsSmaller(d: Account, a: Account)
    requires IsDescendant(d, a)
    ensures NodeCount(d) < NodeCount(a)
    decreases a
  {
    var i :| 0 <= i < |a.subAccounts| &&
      (a.subAccounts[i] == d || IsDescendant(d, a.subAccounts[i]));
    var c := a.subAccounts[i];
    assert NodeCount(c) <= NodeCountOf(a.subAccounts);
    if c != d {
      DescendantIsSmaller(d, c);
    }
  }

  /** `get_sub_tree` never returns the receiver itself. */
  lemma SubTreeExcludesSelf(a: Account)
    ensures a !in SubTree(a)
  {
    SubTreeMembers(a, a);
    if IsDescendant(a, a) {
      DescendantIsSmaller(a, a);
    }
  }

  /** The walk is a post-order per child: the `i`-th child's block starts
      after the blocks of the children before it, holds that child's own
      sub-tree, and ends with the child. */
  lemma SubTreeChildBlock(a: Account, i: nat)
    requires i < |a.subAccounts|
    ensures var start := NodeCountOf(a.subAccounts[..i]);
            var c := a.subAccounts[i];
            && start + NodeCount(c) <= |SubTree(a)|
            && SubTree(a)[start .. start + NodeCount(c) - 1] == SubTree(c)
            && SubTree(a)[start + NodeCount(c) - 1] == c
  {
    var cs := a.subAccounts;
    var c := cs[i];
    assert cs == cs[..i + 1] + cs[i + 1..];
    assert cs[..i] + [c] == cs[..i + 1];
    FlattenAppend(cs[..i + 1], cs[i + 1..]);
    FlattenPush(cs[..i], c);
    FlattenLength(cs[..i]);
    SubTreeLength(c);
    BlockAt(Flatten(cs[..i]), SubTree(c), c, Flatten(cs[i + 1..]));
  }

  /** Appending a child extends the walk by that child's walk and then the
      child: earlier entries keep their places. */
  lemma AddSubAccountSubTree(a: Account, c: Account)
    ensures SubTree(a.AddSubAccount(c)) == SubTree(a) + SubTree(c) + [c]
    ensures NodeCount(a.AddSubAccount(c)) == NodeCount(a) + NodeCount(c)
  {
    var cs := a.AddSubAccount(c).subAccounts;
    assert cs[..|cs| - 1] == a.subAccounts;
  }
}
