/** The older JavaScript chart: it flattens the whole document into one list
    of account records, children before their parent, and answers queries by
    scanning that list. */
module JsCharts {
  import opened Wrappers
  import opened Json
  import opened Sequences

  /** The record `new Account(...)` holds: the document's fields as they are
      (an absent field is `Null`), and the ids of the direct sub-accounts. */
  datatype JsAccount = JsAccount(
    id: JsonValue,
    name: JsonValue,
    description: JsonValue,
    accountType: JsonValue,
    currency: JsonValue,
    placeholder: JsonValue,
    subActIds: seq<JsonValue>)

  /** The `id` field of each document, in order. */
  function ChildIds(items: seq<JsonValue>): seq<JsonValue>
  {
    seq(|items|, i requires 0 <= i < |items| => Get(items[i], "id"))
  }

  /** The record built for one account document. */
  function Record(v: JsonValue): JsAccount
  {
    JsAccount(Get(v, "id"), Get(v, "name"), Get(v, "description"), Get(v, "type"),
              Get(v, "currency"), Get(v, "placeholder"), ChildIds(SubDocuments(v)))
  }

  /** What `_parseAccounts` appends for one document: the records of its
      sub-accounts, sibling after sibling, then its own record. */
  function PostOrder(v: JsonValue): seq<JsAccount>
    decreases Size(v), 1
  {
    SubDocumentsSmaller(v);
    PostOrderAll(SubDocuments(v)) + [Record(v)]
  }

  function PostOrderAll(items: seq<JsonValue>): seq<JsAccount>
    decreases SizeOfItems(items), 2
  {
    if |items| == 0 then []
    else PostOrderAll(items[..|items| - 1]) + PostOrder(items[|items| - 1])
  }

  /** Number of account documents in the tree rooted at `v`. */
  function DocNodeCount(v: JsonValue): nat
    decreases Size(v), 1
  {
    SubDocumentsSmaller(v);
    1 + DocNodeCountAll(SubDocuments(v))
  }

  function DocNodeCountAll(items: seq<JsonValue>): nat
    decreases SizeOfItems(items), 2
  {
    if |items| == 0 then 0
    else DocNodeCountAll(items[..|items| - 1]) + DocNodeCount(items[|items| - 1])
  }

  /** `_parseAccounts` runs to the end on `v`: reading a property of a
      `null` document throws a `TypeError`, so neither `v` nor any document
      below it may be `null`. */
  predicate Parses(v: JsonValue)
    decreases Size(v), 1
  {
    SubDocumentsSmaller(v);
    v != Null && ParsesAll(SubDocuments(v))
  }

  predicate ParsesAll(items: seq<JsonValue>)
    decreases SizeOfItems(items), 2
  {
    |items| == 0 || (ParsesAll(items[..|items| - 1]) && Parses(items[|items| - 1]))
  }

  /** The constructor runs to the end on a chart document: reading
      `accounts` of a `null` document throws, and so does parsing any `null`
      account document. */
  predicate ChartParses(doc: JsonValue)
  {
    doc != Null && ParsesAll(RootDocuments(doc))
  }

  /** A list parses exactly when each of its documents does. */
  lemma {:induction false} ParsesAllEach(items: seq<JsonValue>)
    ensures ParsesAll(items) <==> forall i :: 0 <= i < |items| ==> Parses(items[i])
  {
    if |items| > 0 {
      var n := |items| - 1;
      ParsesAllEach(items[..n]);
      assert forall i :: 0 <= i < n ==> items[..n][i] == items[i];
    }
  }

  /** A document parses exactly when it and every document below it is
      non-`null`: no further failure exists. */
  lemma {:induction false} NullFree(v: JsonValue)
    ensures Parses(v) <==> v != Null && forall i :: 0 <= i < |SubDocuments(v)| ==> Parses(SubDocuments(v)[i])
  {
    ParsesAllEach(SubDocuments(v));
  }

  /** One failing sub-account document makes its parent fail. */
  lemma ChildFails(v: JsonValue, i: nat)
    requires i < |SubDocuments(v)| && !Parses(SubDocuments(v)[i])
    ensures !Parses(v)
  {
    NullFree(v);
  }

  /** A non-`null` document whose sub-account documents all parse, parses. */
  lemma ChildrenParse(v: JsonValue)
    requires v != Null
    requires forall i :: 0 <= i < |SubDocuments(v)| ==> Parses(SubDocuments(v)[i])
    ensures Parses(v)
  {
    NullFree(v);
  }

  /** One record per account document: duplicates of an id are kept apart. */
  lemma {:induction false} PostOrderLength(v: JsonValue)
    ensures |PostOrder(v)| == DocNodeCount(v)
    decreases Size(v), 1
  {
    SubDocumentsSmaller(v);
    PostOrderAllLength(SubDocuments(v));
  }

  lemma {:induction false} PostOrderAllLength(items: seq<JsonValue>)
    ensures |PostOrderAll(items)| == DocNodeCountAll(items)
    decreases SizeOfItems(items), 2
  {
    if |items| > 0 {
      PostOrderAllLength(items[..|items| - 1]);
      PostOrderLength(items[|items| - 1]);
    }
  }

  lemma PostOrderAllSnoc(items: seq<JsonValue>, i: nat)
    requires i < |items|
    ensures PostOrderAll(items[..i + 1]) == PostOrderAll(items[..i]) + PostOrder(items[i])
  {
    assert items[..i + 1][..i] == items[..i];
  }

  lemma ChildIdsSnoc(items: seq<JsonValue>, i: nat)
    requires i < |items|
    ensures ChildIds(items[..i + 1]) == ChildIds(items[..i]) + [Get(items[i], "id")]
  {
  }

  /** The ids recorded for a document are the `id` fields of its direct
      sub-account documents, one per document and in document order. */
  lemma {:induction false} ChildIdsAt(items: seq<JsonValue>)
    ensures |ChildIds(items)| == |items|
    ensures forall i :: 0 <= i < |items| ==> ChildIds(items)[i] == Get(items[i], "id")
  {
    if |items| > 0 {
      var n := |items| - 1;
      ChildIdsAt(items[..n]);
      assert forall i :: 0 <= i < n ==> items[..n][i] == items[i];
    }
  }

  /** The record of a document: its own fields, and its children's ids. */
  lemma RecordFields(v: JsonValue)
    ensures Record(v).id == Get(v, "id") && Record(v).name == Get(v, "name")
    ensures |Record(v).subActIds| == |SubDocuments(v)|
    ensures forall i :: 0 <= i < |SubDocuments(v)| ==>
              Record(v).subActIds[i] == Get(SubDocuments(v)[i], "id")
  {
    ChildIdsAt(SubDocuments(v));
  }

  lemma PostOrderAllPush(items: seq<JsonValue>, v: JsonValue)
    ensures PostOrderAll(items + [v]) == PostOrderAll(items) + PostOrder(v)
  {
    assert (items + [v])[..|items|] == items;
  }

  lemma {:induction false} PostOrderAllAppend(xs: seq<JsonValue>, ys: seq<JsonValue>)
    ensures PostOrderAll(xs + ys) == PostOrderAll(xs) + PostOrderAll(ys)
    decreases |ys|
  {
    if |ys| == 0 {
      assert xs + ys == xs;
    } else {
      var n := |ys| - 1;
      var init, last := ys[..n], ys[n];
      assert ys == init + [last];
      assert xs + ys == (xs + init) + [last];
      PostOrderAllPush(xs + init, last);
      PostOrderAllPush(init, last);
      PostOrderAllAppend(xs, init);
      AppendAssoc(PostOrderAll(xs), PostOrderAll(init), PostOrder(last));
    }
  }

  /** Documents are processed in order and each one's records form one
      contiguous block, placed after the blocks of the documents before it,
      that ends with the document's own record. */
  lemma PostOrderBlock(items: seq<JsonValue>, i: nat)
    requires i < |items|
    ensures var start := DocNodeCountAll(items[..i]);
            var v := items[i];
            && start + DocNodeCount(v) <= |PostOrderAll(items)|
            && PostOrderAll(items)[start .. start + DocNodeCount(v)] == PostOrder(v)
            && PostOrderAll(items)[start + DocNodeCount(v) - 1] == Record(v)
  {
    var v := items[i];
    assert items == items[..i + 1] + items[i + 1..];
    assert items[..i] + [v] == items[..i + 1];
    PostOrderAllAppend(items[..i + 1], items[i + 1..]);
    PostOrderAllPush(items[..i], v);
    PostOrderAllLength(items[..i]);
    PostOrderLength(v);
    PostOrderAllLength(items);
    BlockAt(PostOrderAll(items[..i]) + PostOrderAll(SubDocuments(v)), [], Record(v), PostOrderAll(items[i + 1..]));
  }

  class AccountsChart {
    var accounts: seq<JsAccount>

    /** A chart with no records yet. */
    constructor ()
      ensures accounts == []
    {
      accounts := [];
    }

    /** `new AccountsChart(jsonDescription)`: parses each member of
        `accounts` in document order, so the list is the post-order of the
        whole document with one record per account document. The source's
        constructor throws, and no chart exists, exactly when the document or
        one of its account documents is `null`; that is `None` here. */
    static method FromJson(jsonDescription: JsonValue) returns (r: Option<AccountsChart>)
      ensures r.Some? <==> ChartParses(jsonDescription)
      ensures r.Some? ==> fresh(r.value)
      ensures r.Some? ==> r.value.accounts == PostOrderAll(RootDocuments(jsonDescription))
      ensures r.Some? ==> |r.value.accounts| == DocNodeCountAll(RootDocuments(jsonDescription))
    {
      if jsonDescription == Null {
        return None;
      }
      var chart := new AccountsChart();
      var items := RootDocuments(jsonDescription);
      ParsesAllEach(items);
      for idx := 0 to |items|
        invariant fresh(chart)
        invariant chart.accounts == PostOrderAll(items[..idx])
        invariant forall j :: 0 <= j < idx ==> Parses(items[j])
      {
        assert items[..idx + 1][..idx] == items[..idx];
        var ok := chart.ParseAccounts(items[idx]);
        if !ok {
          return None;
        }
      }
      assert items[..|items|] == items;
      PostOrderAllLength(items);
      r := Some(chart);
    }

    /** `getNumAccounts`: the length of the record list. */
    method GetNumAccounts() returns (n: nat)
      ensures n == |accounts|
    {
      n := |accounts|;
    }

    /** `getAccountById`: the first record in list order whose id equals
        `id`, or `None` (the source's `null`) when none does. */
    method GetAccountById(id: JsonValue) returns (r: Option<JsAccount>)
      ensures r.Some? ==> exists k :: 0 <= k < |accounts| && accounts[k] == r.value &&
                            accounts[k].id == id && forall j :: 0 <= j < k ==> accounts[j].id != id
      ensures r.None? <==> forall j :: 0 <= j < |accounts| ==> accounts[j].id != id
    {
      for idx := 0 to |accounts|
        invariant forall j :: 0 <= j < idx ==> accounts[j].id != id
      {
        if accounts[idx].id == id {
          return Some(accounts[idx]);
        }
      }
      return None;
    }

    /** `_parseAccounts`: the sub-accounts first, each with its own
        sub-accounts before it, collecting their ids; then the record of
        `account` itself, pushed last. `ok` is false exactly when a `null`
        document is met, where the source throws; the records pushed before
        the throw stay in the list. */
    method ParseAccounts(account: JsonValue) returns (ok: bool)
      modifies this
      ensures ok <==> Parses(account)
      ensures ok ==> accounts == old(accounts) + PostOrder(account)
      ensures ok ==> |accounts| == |old(accounts)| + DocNodeCount(account)
      ensures ok ==> accounts[|accounts| - 1] == Record(account)
      ensures old(accounts) <= accounts
      decreases Size(account)
    {
      if account == Null {
        return false;
      }
      ghost var before := accounts;
      var subActIds: seq<JsonValue> := [];
      var subaccounts := SubDocuments(account);
      SubDocumentsSmaller(account);
      for subIdx := 0 to |subaccounts|
        invariant accounts == before + PostOrderAll(subaccounts[..subIdx])
        invariant subActIds == ChildIds(subaccounts[..subIdx])
        invariant forall j :: 0 <= j < subIdx ==> Parses(subaccounts[j])
      {
        var sub := subaccounts[subIdx];
        ItemSize(subaccounts, subIdx);
        PostOrderAllSnoc(subaccounts, subIdx);
        ChildIdsSnoc(subaccounts, subIdx);
        var subOk := ParseAccounts(sub);
        if !subOk {
          ChildFails(account, subIdx);
          return false;
        }
        AppendAssoc(before, PostOrderAll(subaccounts[..subIdx]), PostOrder(sub));
        subActIds := subActIds + [Get(sub, "id")];
      }
      assert subaccounts[..|subaccounts|] == subaccounts;
      var act := JsAccount(Get(account, "id"), Get(account, "name"), Get(account, "description"),
                           Get(account, "type"), Get(account, "currency"), Get(account, "placeholder"),
                           subActIds);
      assert act == Record(account);
      accounts := accounts + [act];
      AppendAssoc(before, PostOrderAll(subaccounts), [act]);
      PostOrderLength(account);
      ChildrenParse(account);
      ok := true;
    }
  }
}
