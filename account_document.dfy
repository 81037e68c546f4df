/** Building accounts from a document, as `From<&JsonValue>` does for an
    account and for the list of top-level accounts. */
module AccountDocuments {
  import opened Wrappers
  import opened Json
  import opened Currencies
  import opened AccountTypes
  import opened Accounts
  import opened Sequences

  /** Why construction failed: a required field that is absent or is not a
      string. The source panics in `unwrap`; here the failure is a value. */
  datatype ParseError = MissingField(field: string)

  /** The four fields every account document must carry as strings, in the
      order they are read. */
  const RequiredFields: seq<string> := ["name", "id", "description", "currency"]

  /** The account a document describes, before its children are added: the
      four required strings, the `placeholder` flag (false unless it is a
      boolean) and the type always `Asset`. */
  function ReadAccount(v: JsonValue): Result<Account, ParseError>
  {
    var name := AsStr(Get(v, "name"));
    var id := AsStr(Get(v, "id"));
    var description := AsStr(Get(v, "description"));
    var currency := AsStr(Get(v, "currency"));
    if name.None? then Err(MissingField("name"))
    else if id.None? then Err(MissingField("id"))
    else if description.None? then Err(MissingField("description"))
    else if currency.None? then Err(MissingField("currency"))
    else
      var placeholder := AsBool(Get(v, "placeholder")).GetOr(false);
      Ok(New(id.value, name.value, description.value, Asset,
             FromAbbrev(currency.value), placeholder))
  }

  /** `account` with the built children appended, or the failure that
      building them met. */
  function WithSubAccounts(account: Account, children: Result<seq<Account>, ParseError>): Result<Account, ParseError>
  {
    match children
    case Err(e) => Err(e)
    case Ok(cs) => Ok(account.(subAccounts := account.subAccounts + cs))
  }

  /** The account a document describes: its own attributes, then the
      `subaccounts` members as children in document order. */
  function FromJson(v: JsonValue): Result<Account, ParseError>
    decreases Size(v), 1
  {
    SubDocumentsSmaller(v);
    match ReadAccount(v)
    case Err(e) => Err(e)
    case Ok(account) => WithSubAccounts(account, FromMembers(SubDocuments(v)))
  }

  /** The accounts a list of documents describes, in order; the first
      document that fails decides the error. */
  function FromMembers(items: seq<JsonValue>): Result<seq<Account>, ParseError>
    decreases SizeOfItems(items), 2
  {
    if |items| == 0 then Ok([])
    else
      match FromMembers(items[..|items| - 1])
      case Err(e) => Err(e)
      case Ok(init) =>
        match FromJson(items[|items| - 1])
        case Err(e) => Err(e)
        case Ok(last) => Ok(init + [last])
  }

  /** The top-level accounts of a chart document: its `accounts` members. */
  function TopLevelFromJson(doc: JsonValue): Result<seq<Account>, ParseError>
  {
    FromMembers(RootDocuments(doc))
  }

  /** When a prefix of the list already fails, the whole list fails with the
      same error. */
  lemma {:induction false} FromMembersPrefixErr(items: seq<JsonValue>, k: nat)
    requires k <= |items| && FromMembers(items[..k]).Err?
    ensures FromMembers(items) == FromMembers(items[..k])
    decreases |items| - k
  {
    if k < |items| {
      assert items[..k + 1][..k] == items[..k];
      FromMembersPrefixErr(items, k + 1);
    } else {
      assert items[..k] == items;
    }
  }

  /** One more successful document extends a successful list by its account. */
  lemma FromMembersSnoc(items: seq<JsonValue>, i: nat, a: Account)
    requires i < |items| && FromMembers(items[..i]).Ok? && FromJson(items[i]) == Ok(a)
    ensures FromMembers(items[..i + 1]) == Ok(FromMembers(items[..i]).value + [a])
  {
    assert items[..i + 1][..i] == items[..i];
  }

  /** A successful list yields one account per document, each the account
      that document describes, in document order. */
  lemma {:induction false} FromMembersAt(items: seq<JsonValue>, i: nat)
    requires i < |items| && FromMembers(items).Ok?
    ensures |FromMembers(items).value| == |items|
    ensures FromJson(items[i]) == Ok(FromMembers(items).value[i])
  {
    var n := |items| - 1;
    var init := items[..n];
    if i < n {
      FromMembersAt(init, i);
      assert items[i] == init[i];
    } else if n > 0 {
      FromMembersAt(init, 0);
    }
  }

  /** A failing list fails with the error of its first failing document;
      every document before that one succeeds. */
  lemma {:induction false} FromMembersErr(items: seq<JsonValue>) returns (k: nat)
    requires FromMembers(items).Err?
    ensures k < |items| && FromJson(items[k]).Err?
    ensures FromMembers(items).error == FromJson(items[k]).error
    ensures FromMembers(items[..k]).Ok?
  {
    var n := |items| - 1;
    var init := items[..n];
    if FromMembers(init).Err? {
      k := FromMembersErr(init);
      assert items[k] == init[k];
      assert init[..k] == items[..k];
    } else {
      k := n;
    }
  }

  /** When every document of a list succeeds, so does the list. */
  lemma {:induction false} FromMembersAllOk(items: seq<JsonValue>)
    requires forall i :: 0 <= i < |items| ==> FromJson(items[i]).Ok?
    ensures FromMembers(items).Ok?
  {
    if FromMembers(items).Err? {
      var k := FromMembersErr(items);
    }
  }

  /** An account built from a document: every attribute comes from its field,
      the type is `Asset` whatever the document says, the placeholder flag is
      the document's boolean or false, and the `subaccounts` members become
      the children in document order. */
  lemma FromJsonOk(v: JsonValue)
    requires FromJson(v).Ok?
    ensures var a := FromJson(v).value;
            var items := SubDocuments(v);
            && Get(v, "name") == Str(a.name)
            && Get(v, "id") == Str(a.id)
            && Get(v, "description") == Str(a.description)
            && Get(v, "currency").Str? && a.currency == FromAbbrev(Get(v, "currency").s)
            && a.accountType == Asset
            && (a.placeholder <==> Get(v, "placeholder") == Boolean(true))
            && |a.subAccounts| == |items|
            && forall i :: 0 <= i < |items| ==> FromJson(items[i]) == Ok(a.subAccounts[i])
  {
    var items := SubDocuments(v);
    var children := FromMembers(items);
    assert children.Ok? && FromJson(v).value.subAccounts == children.value;
    if |items| > 0 {
      FromMembersAt(items, 0);
    }
    forall i | 0 <= i < |items|
      ensures FromJson(items[i]) == Ok(children.value[i])
    {
      FromMembersAt(items, i);
    }
  }

  /** Construction succeeds exactly when the four required fields are strings
      and every sub-account document succeeds in turn. */
  lemma FromJsonSucceeds(v: JsonValue)
    ensures FromJson(v).Ok? <==>
      && (forall f :: f in RequiredFields ==> Get(v, f).Str?)
      && (forall m :: m in SubDocuments(v) ==> FromJson(m).Ok?)
  {
    var items := SubDocuments(v);
    if FromMembers(items).Err? {
      var k := FromMembersErr(items);
      assert items[k] in items;
    } else {
      forall m | m in items ensures FromJson(m).Ok? {
        var i :| 0 <= i < |items| && items[i] == m;
        FromMembersAt(items, i);
      }
    }
    if forall m :: m in items ==> FromJson(m).Ok? {
      forall i | 0 <= i < |items| ensures FromJson(items[i]).Ok? {
        assert items[i] in items;
      }
      FromMembersAllOk(items);
    }
  }

  /** A document lacking a required string field yields no account at all,
      and the error names the first such field in reading order. */
  lemma MissingFieldFails(v: JsonValue, k: nat)
    requires k < |RequiredFields|
    requires !Get(v, RequiredFields[k]).Str?
    requires forall j :: 0 <= j < k ==> Get(v, RequiredFields[j]).Str?
    ensures FromJson(v) == Err(MissingField(RequiredFields[k]))
  {
    assert forall j :: 0 <= j < k ==> Get(v, RequiredFields[j]).Str?;
    if k > 0 { assert Get(v, RequiredFields[0]).Str?; }
    if k > 1 { assert Get(v, RequiredFields[1]).Str?; }
    if k > 2 { assert Get(v, RequiredFields[2]).Str?; }
  }

  /** Every failure is a missing required field. */
  lemma {:induction false} ErrorIsRequiredField(v: JsonValue)
    requires FromJson(v).Err?
    ensures FromJson(v).error.field in RequiredFields
    decreases Size(v), 1
  {
    var items := SubDocuments(v);
    SubDocumentsSmaller(v);
    if forall f :: f in RequiredFields ==> Get(v, f).Str? {
      assert Get(v, "name").Str? && Get(v, "id").Str?;
      assert Get(v, "description").Str? && Get(v, "currency").Str?;
      ErrorIsRequiredFieldAll(items);
    }
  }

  lemma {:induction false} ErrorIsRequiredFieldAll(items: seq<JsonValue>)
    requires FromMembers(items).Err?
    ensures FromMembers(items).error.field in RequiredFields
    decreases SizeOfItems(items), 2
  {
    var n := |items| - 1;
    if FromMembers(items[..n]).Err? {
      ErrorIsRequiredFieldAll(items[..n]);
    } else {
      ErrorIsRequiredField(items[n]);
    }
  }

  /** `From<&JsonValue> for Account`: reads the four required fields in order,
      failing at the first that is not a string, then the placeholder flag,
      builds the account with type `Asset`, and adds its sub-accounts. */
  method AccountFromJson(value: JsonValue) returns (r: Result<Account, ParseError>)
    ensures r == FromJson(value)
    decreases Size(value), 1
  {
    var subAccountsJson := Get(value, "subaccounts");
    var name := AsStr(Get(value, "name"));
    if name.None? { return Err(MissingField("name")); }
    var id := AsStr(Get(value, "id"));
    if id.None? { return Err(MissingField("id")); }
    var description := AsStr(Get(value, "description"));
    if description.None? { return Err(MissingField("description")); }
    var actType := Asset;
    var currencyStr := AsStr(Get(value, "currency"));
    if currencyStr.None? { return Err(MissingField("currency")); }
    var placeholder := AsBool(Get(value, "placeholder")).GetOr(false);
    var resultAccount := New(id.value, name.value, description.value, actType,
                             FromAbbrev(currencyStr.value), placeholder);
    GetSmaller(value, "subaccounts");
    r := ParseAndAddSubAccounts(resultAccount, subAccountsJson);
  }

  /** `parse_and_add_sub_accounts`: builds each member of `json` in turn and
      appends it to `account`'s children; the first member that fails aborts
      the whole construction. */
  method ParseAndAddSubAccounts(account: Account, json: JsonValue) returns (r: Result<Account, ParseError>)
    ensures r == WithSubAccounts(account, FromMembers(Members(json)))
    decreases Size(json), 0
  {
    var items := Members(json);
    MembersSmaller(json);
    var acc := account;
    ghost var built: seq<Account> := [];
    for i := 0 to |items|
      invariant FromMembers(items[..i]) == Ok(built)
      invariant acc == account.(subAccounts := account.subAccounts + built)
    {
      ItemSize(items, i);
      var next := AccountFromJson(items[i]);
      if next.Err? {
        assert items[..i + 1][..i] == items[..i];
        FromMembersPrefixErr(items, i + 1);
        return Err(next.error);
      }
      FromMembersSnoc(items, i, next.value);
      AppendAssoc(account.subAccounts, built, [next.value]);
      acc := acc.AddSubAccount(next.value);
      assert acc.subAccounts == acc.subAccounts[..|acc.subAccounts| - 1] + [next.value];
      built := built + [next.value];
    }
    assert items[..|items|] == items;
    r := Ok(acc);
  }
}
