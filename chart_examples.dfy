/** The fixture chart of the crate's tests and the duplicate-id cases, stated
    over the two charts. */
module ChartExamples {
  import opened Wrappers
  import opened Json
  import opened Currencies
  import opened AccountTypes
  import opened Accounts
  import opened AccountDocuments
  import opened Charts
  import JsCharts

  /** An account document with the fixture's field order: name,
      description, id, type, currency, placeholder, subaccounts. */
  function AccountDocument(name: string, description: string, id: string,
                           placeholder: bool, subs: seq<JsonValue>): JsonValue
  {
    Object([
      Entry("name", Str(name)),
      Entry("description", Str(description)),
      Entry("id", Str(id)),
      Entry("type", Number(1)),
      Entry("currency", Str("USD")),
      Entry("placeholder", Boolean(placeholder)),
      Entry("subaccounts", Array(subs))])
  }

  /** The attribute fields such a document offers to the reader. */
  lemma AccountDocumentFields(name: string, description: string, id: string,
                              placeholder: bool, subs: seq<JsonValue>)
    ensures var v := AccountDocument(name, description, id, placeholder, subs);
            Get(v, "name") == Str(name) && Get(v, "description") == Str(description) &&
            Get(v, "id") == Str(id)
  {
    var e := AccountDocument(name, description, id, placeholder, subs).entries;
    LookupFirst(e, "name", 0);
    LookupFirst(e, "description", 1);
    LookupFirst(e, "id", 2);
  }

  /** The currency, placeholder and children fields of such a document. */
  lemma AccountDocumentTail(name: string, description: string, id: string,
                            placeholder: bool, subs: seq<JsonValue>)
    ensures var v := AccountDocument(name, description, id, placeholder, subs);
            Get(v, "currency") == Str("USD") &&
            Get(v, "placeholder") == Boolean(placeholder) && Get(v, "subaccounts") == Array(subs)
  {
    var e := AccountDocument(name, description, id, placeholder, subs).entries;
    LookupFirst(e, "currency", 4);
    LookupFirst(e, "placeholder", 5);
    LookupFirst(e, "subaccounts", 6);
  }

  /** Such a document describes a US-dollar asset account with these
      attributes, whose children are built from `subs`. */
  lemma AccountDocumentParses(name: string, description: string, id: string,
                              placeholder: bool, subs: seq<JsonValue>)
    ensures FromJson(AccountDocument(name, description, id, placeholder, subs)) ==
            WithSubAccounts(New(id, name, description, Asset, USDollar, placeholder), FromMembers(subs))
  {
    AccountDocumentFields(name, description, id, placeholder, subs);
    AccountDocumentTail(name, description, id, placeholder, subs);
  }

  /** The three-level fixture: Assets > Accounts Receivable > Lakeville North
      High School, as a document and as a tree built by hand with `new` and
      `add_sub_account`. */
  const LeafDocument: JsonValue :=
    AccountDocument("Lakeville North High School", "A/R for Lakeville North High School Hockey",
                    "01-0101", false, [])
  const MiddleDocument: JsonValue :=
    AccountDocument("Accounts Receivable", "Accounts Receivable", "01-01", true, [LeafDocument])
  const RootDocument: JsonValue :=
    AccountDocument("Assets", "Assets", "01", true, [MiddleDocument])
  const ChartDocument: JsonValue := Object([Entry("accounts", Array([RootDocument]))])

  const Leaf: Account :=
    New("01-0101", "Lakeville North High School",
        "A/R for Lakeville North High School Hockey", Asset, USDollar, false)
  const Middle: Account :=
    New("01-01", "Accounts Receivable", "Accounts Receivable", Asset, USDollar, true)
      .AddSubAccount(Leaf)
  const Root: Account :=
    New("01", "Assets", "Assets", Asset, USDollar, true).AddSubAccount(Middle)

  /** A one-element member list parses to its one account, or fails with it. */
  lemma SingleMember(v: JsonValue)
    ensures FromJson(v).Ok? ==> FromMembers([v]) == Ok([FromJson(v).value])
    ensures FromJson(v).Err? ==> FromMembers([v]) == Err(FromJson(v).error)
  {
    assert [v][..0] == [];
    assert FromMembers([]) == Ok([]);
    if FromJson(v).Ok? {
      assert [] + [FromJson(v).value] == [FromJson(v).value];
    }
  }

  /** The leaf document builds the leaf account. */
  lemma LeafParses()
    ensures FromJson(LeafDocument) == Ok(Leaf)
  {
    AccountDocumentParses("Lakeville North High School", "A/R for Lakeville North High School Hockey",
                          "01-0101", false, []);
    assert FromMembers([]) == Ok([]);
    assert Leaf.subAccounts + [] == Leaf.subAccounts;
  }

  /** The middle document builds the middle account with the leaf below it. */
  lemma MiddleParses()
    ensures FromJson(MiddleDocument) == Ok(Middle)
  {
    LeafParses();
    SingleMember(LeafDocument);
    AccountDocumentParses("Accounts Receivable", "Accounts Receivable", "01-01", true, [LeafDocument]);
  }

  /** Building the chart from the fixture document gives the hand-built
      tree as its single root. */
  lemma FixtureParses()
    ensures TopLevelFromJson(ChartDocument) == Ok([Root])
  {
    MiddleParses();
    SingleMember(MiddleDocument);
    AccountDocumentParses("Assets", "Assets", "01", true, [MiddleDocument]);
    assert FromJson(RootDocument) == Ok(Root);
    SingleMember(RootDocument);
    assert RootDocuments(ChartDocument) == [RootDocument];
  }

  /** The sub-trees of the fixture accounts, children before parents. */
  lemma FixtureSubTrees()
    ensures SubTree(Leaf) == []
    ensures SubTree(Middle) == [Leaf]
    ensures SubTree(Root) == [Leaf, Middle]
  {
    AddSubAccountSubTree(New("01-01", "Accounts Receivable", "Accounts Receivable", Asset, USDollar, true), Leaf);
    AddSubAccountSubTree(New("01", "Assets", "Assets", Asset, USDollar, true), Middle);
  }

  /** The fixture chart indexes the root, then the leaf, then the middle
      account. */
  lemma FixtureIndexOrder()
    ensures IndexOrder([Root]) == [Root, Leaf, Middle]
  {
    FixtureSubTrees();
    IndexOrderOne(Root);
  }

  /** The fixture chart holds exactly the fixture's three ids. */
  lemma FixtureIds()
    ensures AccountMap([Root]).Keys == {"01", "01-01", "01-0101"}
  {
    FixtureIndexOrder();
    AccountMapKeys([Root]);
    assert Ids([Root, Leaf, Middle]) == {"01", "01-0101", "01-01"};
  }

  /** The fixture chart counts three accounts, and the leaf id finds the
      leaf with all its attributes. */
  lemma FixtureQueries()
    ensures |AccountMap([Root])| == 3
    ensures "01-0101" in AccountMap([Root]) && AccountMap([Root])["01-0101"] == Leaf
    ensures Leaf.name == "Lakeville North High School" && Leaf.accountType == Asset
    ensures Leaf.description == "A/R for Lakeville North High School Hockey"
    ensures Leaf.currency == USDollar && !Leaf.placeholder
  {
    FixtureIds();
    assert |AccountMap([Root]).Keys| == 3;
    FixtureIndexOrder();
    InsertAllLastWins(map[], [Root, Leaf, Middle], 1);
  }

  /** Two roots with the same id: the later root's data wins and the pair
      counts as one id. */
  lemma LaterRootWins(a: Account, b: Account)
    requires a.id == b.id && a.subAccounts == [] && b.subAccounts == []
    ensures AccountMap([a, b]) == map[a.id := b]
    ensures |AccountMap([a, b])| == 1
  {
    assert SubTree(a) == [] && SubTree(b) == [];
    assert [a, b][..1] == [a];
    assert IndexOrder([a]) == [a];
    assert IndexOrder([a, b]) == [a, b];
    InsertAllSnoc(map[], [a], b);
    assert InsertAll(map[], [a]) == map[a.id := a];
  }

  /** A root whose child carries the root's own id: the child is inserted
      after the root and replaces it. */
  lemma ChildShadowsRoot(r: Account, c: Account)
    requires r.subAccounts == [c] && c.subAccounts == [] && c.id == r.id
    ensures AccountMap([r]) == map[r.id := c]
  {
    assert [c][..0] == [];
    assert SubTree(c) == [];
    assert SubTree(r) == [c];
    IndexOrderOne(r);
    InsertAllSnoc(map[], [r], c);
    InsertAllSnoc(map[], [], r);
    assert [] + [r] == [r];
  }

  /** The index order of a one-root chart: the root, then its sub-tree. */
  lemma IndexOrderOne(r: Account)
    ensures IndexOrder([r]) == [r] + SubTree(r)
  {
    assert [r][..0] == [];
  }

  /** A document with two leaf accounts that share an id. */
  function TwinDocument(first: JsonValue, second: JsonValue): JsonValue
  {
    Object([Entry("accounts", Array([first, second]))])
  }

  /** The JavaScript chart counts both twins and finds the first; the Rust
      chart counts one id and finds the second. */
  lemma TwinsDiffer(first: JsonValue, second: JsonValue)
    requires SubDocuments(first) == [] && SubDocuments(second) == []
    requires Get(first, "id") == Get(second, "id")
    ensures |JsCharts.PostOrderAll(RootDocuments(TwinDocument(first, second)))| == 2
    ensures JsCharts.PostOrderAll(RootDocuments(TwinDocument(first, second))) ==
            [JsCharts.Record(first), JsCharts.Record(second)]
    ensures JsCharts.ChartParses(TwinDocument(first, second)) <==> first != Null && second != Null
    ensures TopLevelFromJson(TwinDocument(first, second)).Ok? ==>
              var tops := TopLevelFromJson(TwinDocument(first, second)).value;
              |tops| == 2 && tops[0].id == tops[1].id && AccountMap(tops) == map[tops[1].id := tops[1]]
  {
    var items := [first, second];
    assert RootDocuments(TwinDocument(first, second)) == items;
    assert items[..1] == [first];
    assert JsCharts.PostOrder(first) == [JsCharts.Record(first)];
    assert JsCharts.PostOrder(second) == [JsCharts.Record(second)];
    JsCharts.ParsesAllEach(items);
    JsCharts.NullFree(first);
    JsCharts.NullFree(second);
    if TopLevelFromJson(TwinDocument(first, second)).Ok? {
      var tops := TopLevelFromJson(TwinDocument(first, second)).value;
      FromMembersAt(items, 0);
      FromMembersAt(items, 1);
      FromJsonOk(first);
      FromJsonOk(second);
      LaterRootWins(tops[0], tops[1]);
      assert tops == [tops[0], tops[1]];
    }
  }

  /** A `null` chart document, or a `null` account document at any depth,
      makes the JavaScript constructor throw; the Rust construction fails on
      the same documents because their required fields are missing. */
  lemma NullDocumentsThrow()
    ensures !JsCharts.ChartParses(Null)
    ensures !JsCharts.ChartParses(Object([Entry("accounts", Array([Null]))]))
    ensures !JsCharts.ChartParses(Object([Entry("accounts", Array([
              AccountDocument("Assets", "Assets", "01", true, [Null])]))]))
    ensures TopLevelFromJson(Object([Entry("accounts", Array([Null]))])) == Err(MissingField("name"))
  {
  }

  /** A client of the chart class: the counting queries of the crate's
      tests, answered from the methods' contracts alone. */
  method FixtureClient()
  {
    var chart := new AccountsChart();
    chart.AddTopLevelAccount(Root);
    FixtureQueries();
    var n := chart.GetNumAccounts();
    assert n == 3;
    var found := chart.GetAccountById("01-0101");
    assert found == Some(Leaf);
  }

  /** A client that lists the fixture chart's ids and asks for one it does
      not hold. */
  method FixtureIdsClient()
  {
    var chart := new AccountsChart();
    chart.AddTopLevelAccount(Root);
    FixtureIds();
    var missing := chart.GetAccountById("02");
    assert missing == None;
    var ids := chart.GetAccountIds();
    assert |ids| == 3 && "01" in ids && "01-01" in ids && "01-0101" in ids;
  }
}
