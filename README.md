# cratchit chart of accounts, modelled in Dafny

cratchit keeps a chart of accounts as a tree. Each account node holds:
- an id, a name and a description;
- an account type and a currency;
- a placeholder flag;
- an ordered list of owned sub-accounts.

A chart owns a list of top-level (root) accounts. Every query rebuilds a hash map from id to account. It walks each root in order, inserting the root and then the root's sub-tree. The sub-tree lists, for each child from left to right, that child's own sub-tree followed by the child. A later insertion under an id that is already present replaces the earlier one.

Accounts and charts can also be built from a JSON document. Each account document must carry the string fields `name`, `id`, `description` and `currency`. An absent or non-boolean `placeholder` means false. The account type is always `Asset`. The `subaccounts` members become the children, in document order.

The repository keeps two copies of the Rust logic, `src/lib.rs` and `src/accounts.rs`. This project models that logic once, and the table below cites both copies. The older JavaScript chart (`src/AccountsChart.js`) is modelled separately. It flattens the whole document into one list in post-order: each account's descendants come before the account. Queries scan that list.

Modules (one file each):
- `Wrappers` (`wrappers.dfy`): `Option` and `Result`.
- `Sequences` (`sequences.dfy`): two facts about concatenation.
- `Json` (`json.dfy`): the document as a tree of values with the `json` crate's accessors. Indexing a non-object or a missing key gives `Null`. `members()` of a non-array is empty. `RootDocuments` is a chart document's `accounts` members and `SubDocuments` an account document's `subaccounts` members; both charts use them.
- `Currencies` (`currency.dfy`): `Currency` and its resolver.
- `AccountTypes` (`account_type.dfy`): `AccountType`, its discriminants and its case-insensitive resolver.
- `Accounts` (`account.dfy`): the `Account` tree as a value type: `new`, the getters, `add_sub_account` and `get_sub_tree`.
- `AccountDocuments` (`account_document.dfy`): building an account from a document.
- `Charts` (`accounts_chart.dfy`): the Rust `AccountsChart` as a class over its list of roots.
- `JsCharts` (`js_accounts_chart.dfy`): the JavaScript `AccountsChart` as a class over its record list.
- `ChartExamples` (`chart_examples.dfy`): the crate's fixture chart and small scenarios, proved from the contracts.

How the Rust code maps onto the model:
- A Rust `Account` is owned and cloned, never shared, so it is a Dafny datatype.
- `add_sub_account` returns the extended value.
- `get_sub_tree`, `get_account_map` and `parse_and_add_sub_accounts` keep their loops as methods, each proved equal to a specification function: `SubTree`, `AccountMap` and `FromMembers`.
- A `.unwrap()` on a missing required field panics in the source. Here it is a `ParseError` result, so no partial account is ever returned.

## Model

| member | source | states |
|---|---|---|
| Currencies.FromAbbrev | src/currency.rs:7-14 | the result is `USDollar` exactly for the string "USD" and `Unknown` for every other string; total and case-sensitive; the copy at src/lib.rs:67-74 is the same code |
| Currencies.FromAbbrevExamples | tests/test_currency.rs:5-12 | "USD" gives `USDollar`; "EUR", "", "usd" and "USD " give `Unknown` |
| AccountTypes.DiscriminantInjective | src/lib.rs:76-86 | distinct variants have distinct `repr(u8)` values; Liability is 5 and Asset is 1 |
| AccountTypes.FromNameCharacterization | src/lib.rs:88-101 | each of the five named variants comes from exactly its name in any letter case, and `Other` comes from exactly the strings that are none of the five; the copy at src/accounts.rs:17-30 is the same code |
| AccountTypes.FromNameIgnoresCase | src/accounts.rs:19-21 | two strings that differ only in letter case resolve to the same type |
| AccountTypes.FromNameExamples | tests/test_accounts.rs:51-61 | "asset", "ASSET" and "AsSeT" give Asset; "LiaBilIty" gives Liability; "Income" gives Income; "cash" and "" give Other |
| Accounts.New | src/lib.rs:142-193 | the new account's getters return exactly the given id, name, description, type, currency and placeholder flag, and it has no children; the copy at src/accounts.rs:69-120 is the same code |
| Accounts.Account.AddSubAccount | src/lib.rs:195-197 | every attribute is kept; the children grow by one, the earlier children keep their places, and the new child is last; the copy at src/accounts.rs:122-124 is the same code |
| Accounts.GetSubTree | src/lib.rs:203-215 | the nested loops return exactly the sub-tree walk `SubTree(a)`: for each child in order, that child's walk and then the child; the copy at src/accounts.rs:130-142 is the same code |
| Accounts.SubTreeLength | src/lib.rs:203-215 | the walk holds one entry per strict descendant, node count minus one; it is empty exactly for a leaf |
| Accounts.SubTreeMembers | src/accounts.rs:130-142 | an account occurs in the walk exactly when it is a strict descendant of the receiver |
| Accounts.SubTreeExcludesSelf | src/lib.rs:203-215 | the receiver never occurs in its own walk |
| Accounts.SubTreeChildBlock | src/lib.rs:205-212 | the i-th child's entries form one block after the blocks of the earlier children; the block is that child's own walk, followed by the child; the copy at src/accounts.rs:132-139 is the same code |
| Accounts.AddSubAccountSubTree | src/accounts.rs:122-142 | appending child c extends the walk by c's walk followed by c, and adds c's nodes to the node count |
| AccountDocuments.AccountFromJson | src/lib.rs:115-138 | reading the fields with early failure gives exactly `FromJson(value)`: the first missing string field among name, id, description and currency fails, otherwise the account is built and its sub-accounts are added; the copy at src/accounts.rs:43-66 is the same code |
| AccountDocuments.ParseAndAddSubAccounts | src/lib.rs:164-169 | the loop appends the account of each member in order after the existing children, or fails with the first member's failure; the copy at src/accounts.rs:91-96 is the same code |
| AccountDocuments.FromJsonOk | src/lib.rs:117-136 | a built account carries the document's name, id and description strings, the currency resolved from its abbreviation, type Asset, and a placeholder flag that is true exactly when the document's flag is boolean true; the children are the members' accounts, one per member, in order |
| AccountDocuments.FromJsonSucceeds | src/accounts.rs:45-62 | construction succeeds exactly when all four required fields are strings and every sub-account document succeeds |
| AccountDocuments.MissingFieldFails | src/accounts.rs:47-51 | a document whose k-th required field is not a string, while the earlier ones are, fails with that field and yields no account |
| AccountDocuments.ErrorIsRequiredField | src/lib.rs:119-123 | every failure, at any depth, names one of the four required fields |
| AccountDocuments.FromMembersAt | src/lib.rs:164-169 | a successful member list yields one account per member, the i-th being the account of the i-th member |
| AccountDocuments.FromMembersErr | src/accounts.rs:91-96 | a failing member list fails with the error of its first failing member, and every member before it succeeds |
| Charts.AccountsChart.constructor | src/lib.rs:242-246 | a new chart has no roots |
| Charts.AccountsChart.FromJson | src/lib.rs:223-238 | the roots are the accounts of the `accounts` members, in document order; the chart is built exactly when every member builds, and otherwise it fails with the first member's failure; the copy at src/accounts.rs:149-163 is the same code |
| Charts.AccountsChart.AddTopLevelAccount | src/lib.rs:248-250 | the root list becomes the old list followed by the new account; the copy at src/accounts.rs:172-174 is the same code |
| Charts.AccountsChart.GetAccountMap | src/lib.rs:271-285 | the loops build exactly `AccountMap(roots)`: each root and then its walk, root after root, inserted under their ids; the copy at src/accounts.rs:195-209 is the same code |
| Charts.AccountMapKeys | src/lib.rs:271-285 | the map's keys are exactly the ids met in the insertion order |
| Charts.IndexOrderMembers | src/lib.rs:275-282 | the insertion order visits exactly the roots and their descendants |
| Charts.AccountMapDomain | src/lib.rs:275-282 | an id is a key exactly when some root or descendant carries it |
| Charts.AccountMapEntry | src/accounts.rs:199-206 | each key maps to the account inserted last with that id, which carries that id |
| Charts.InsertAllLastWins | src/accounts.rs:200-204 | an account that no later insertion shares its id with is the entry for its id |
| Charts.AddRootAccountMap | src/accounts.rs:199-206 | adding a root inserts the root over the previous map and then its walk, so a descendant with the root's id replaces the root |
| Charts.AccountMapSize | src/lib.rs:252-254 | the map has one entry per distinct reachable id, so never more entries than the chart has nodes |
| Charts.AccountsChart.GetNumAccounts | src/lib.rs:252-254 | the count is the size of the rebuilt map: the number of distinct reachable ids, at most the node count; the copy at src/accounts.rs:176-178 is the same code |
| Charts.AccountsChart.GetAccountById | src/lib.rs:256-264 | `Some` exactly when the id is a key of the rebuilt map, that is, carried by a reachable account; the value is the map's entry and carries the id; `None` otherwise; the copy at src/accounts.rs:180-188 is the same code |
| Charts.AccountsChart.GetAccountIds | src/lib.rs:266-269 | every key of the rebuilt map exactly once: no duplicates, membership exactly the key set, length the map's size; the copy at src/accounts.rs:190-193 is the same code |
| JsCharts.AccountsChart.FromJson | src/AccountsChart.js:4-11 | construction fails (the source throws a `TypeError`) exactly when the chart document is `null` or some account document at any depth is `null`; otherwise the new chart's record list is the post-order of the `accounts` members, taken in document order, with one record per account document |
| JsCharts.AccountsChart.ParseAccounts | src/AccountsChart.js:27-42 | the call succeeds exactly when the account document and every document below it is non-`null`; on success it appends the records of the sub-account documents, each with its own descendants before it, and then the account's own record last; the records already in the list are never changed |
| JsCharts.ParsesAllEach | src/AccountsChart.js:7-10 | a list of account documents is read without a throw exactly when each document in it is |
| JsCharts.NullFree | src/AccountsChart.js:27-35 | an account document is read without a throw exactly when it is not `null` and each of its sub-account documents is read without a throw |
| JsCharts.RecordFields | src/AccountsChart.js:28-40 | a record keeps the document's id and name, and its child ids are the direct sub-account documents' ids, one per document, in order |
| JsCharts.PostOrderLength | src/AccountsChart.js:13-15 | the post-order holds one record per account document, so duplicate ids are counted separately |
| JsCharts.AccountsChart.GetNumAccounts | src/AccountsChart.js:13-15 | the count is the length of the record list |
| JsCharts.AccountsChart.GetAccountById | src/AccountsChart.js:17-25 | the first record in list order with that id; `None` (the source's `null`) exactly when no record has it |
| JsCharts.PostOrderBlock | src/AccountsChart.js:7-10 | each top-level document's records sit in one block after the blocks of the earlier documents, and the block ends with that document's own record |
| ChartExamples.FixtureParses | tests/test_accounts.rs:7-49 | the three-level fixture document builds the hand-built tree Assets > Accounts Receivable > Lakeville North High School as the only root |
| ChartExamples.FixtureQueries | tests/test_accounts.rs:103-119 | the fixture chart counts 3 accounts; id "01-0101" finds the leaf with its name, description, type Asset, US dollars and no placeholder flag |
| ChartExamples.FixtureIds | tests/test_accounts.rs:121-132 | the fixture chart's ids are exactly "01", "01-01" and "01-0101" |
| ChartExamples.LaterRootWins | src/lib.rs:275-277 | two leaf roots with one id leave one entry, the later root |
| ChartExamples.ChildShadowsRoot | src/accounts.rs:199-205 | a child that carries its root's id replaces the root in the map |
| ChartExamples.TwinsDiffer | src/AccountsChart.js:13-25 | for two top-level leaf documents with one id, the JavaScript list holds both records, first one first, while the Rust map keeps only the second account; the JavaScript construction fails exactly when one of the two is `null` |
| ChartExamples.NullDocumentsThrow | src/AccountsChart.js:7-31 | a `null` chart document, `{"accounts": [null]}` and a `null` sub-account document all make the JavaScript construction fail; the Rust construction rejects `{"accounts": [null]}` for its missing `name` |

## Left out

- JSON text parsing (`json::parse`): a document is already a value tree. Numbers carry an integer. The Rust core never reads them. The JavaScript chart only copies them into records (`account.type` is a number in the crate's fixture) and compares ids by equality, so an integer is an opaque stand-in there; documents with non-integer numbers, such as `"type": 1.5` or `"id": 2.5`, are outside the model.
- Objects with duplicate keys: a lookup returns the first entry with the key. Neither parser the sources use ever produces such an object: the `json` crate's object insert and JavaScript's `JSON.parse` both keep only the last value of a repeated key. So the first-entry rule is a choice of representation, not behaviour of the source.
- `AccountTypes.FromName`: lower-cases ASCII letters only, not the full Unicode mapping of `String::to_lowercase`.
- `Charts.AccountsChart.GetAccountIds`: leaves the order of the ids open. The source's order is the hash map's iteration order.
- Panics: a missing required field is an `Err(MissingField(..))` result, not an abort of the program.
- `count` in `AccountsChart::from` (src/lib.rs:227, 233): written and never read, so it is not modelled.
- The account's `type` field: `AccountType` is ignored when building from a document, since the source always uses `Asset`.
- `JsCharts.AccountsChart.GetAccountById`: compares ids with structural equality of document values, not with JavaScript's loose `==` coercions.
- JavaScript `undefined`: not distinguished from `null`; an absent field is `Null`.
- `JsCharts.AccountsChart.ParseAccounts`: after a failure it promises only that the earlier records are kept, not which partial records were appended; the source's exception discards the half-built chart, so `FromJson` returns `None` and no caller sees them.
- JavaScript exceptions: a `TypeError` is a `None` result from `FromJson` (a `false` from `ParseAccounts`), not a thrown value; only the `null` reads at src/AccountsChart.js:7 and :31 can throw, because every other read is of a field of a non-`null` value.
- JavaScript `for...in` over non-array values: not modelled; it is treated like `members()`, so a non-array has no members.
- src/Account.js is not part of this model as a class: its constructor only stores its arguments, so it is the `JsAccount` record.
- The wasm-bindgen glue in wasm/src/lib.rs, the browser demo in www/index.js and integration/test.js, build.rs, and the `cfg_if!` blocks of src/lib.rs (panic hook and allocator): platform plumbing with no chart logic.
- Aliasing: a Rust `Account` is a value that the chart clones, so the model has no shared mutable nodes.
