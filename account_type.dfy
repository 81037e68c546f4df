/** The classification of an account and its case-insensitive resolver. */
module AccountTypes {

  datatype AccountType = Asset | Equity | Expense | Income | Liability | Other

  /** The explicit `#[repr(u8)]` discriminant of each variant. */
  function Discriminant(t: AccountType): (n: int)
    ensures 1 <= n <= 6
  {
    match t
    case Asset => 1
    case Equity => 2
    case Expense => 3
    case Income => 4
    case Liability => 5
    case Other => 6
  }

  /** Distinct variants have distinct discriminants; the crate's test reads
      5 for Liability and 1 for Asset. */
  lemma DiscriminantInjective(s: AccountType, t: AccountType)
    ensures Discriminant(s) == Discriminant(t) <==> s == t
    ensures Discriminant(Liability) == 5 && Discriminant(Asset) == 1
  {
  }

  /** ASCII lower-casing of one character. */
  function LowerChar(c: char): char
  {
    if 'A' <= c <= 'Z' then ((c as int) + 32) as char else c
  }

  /** ASCII lower-casing of a string, character by character. */
  function ToLower(s: string): (r: string)
    ensures |r| == |s|
    ensures forall i :: 0 <= i < |s| ==> r[i] == LowerChar(s[i])
  {
    seq(|s|, i requires 0 <= i < |s| => LowerChar(s[i]))
  }

  /** `a` and `b` spell the same word up to ASCII case. */
  predicate EqualIgnoringCase(a: string, b: string)
  {
    |a| == |b| && forall i :: 0 <= i < |a| ==> LowerChar(a[i]) == LowerChar(b[i])
  }

  /** A word with no upper-case ASCII letter. */
  predicate IsLowerWord(w: string)
  {
    forall i :: 0 <= i < |w| ==> !('A' <= w[i] <= 'Z')
  }

  /** `AccountType::from(&str)`: the lower-cased input compared with the five
      variant names; anything else falls back to `Other`. */
  function FromName(value: string): AccountType
  {
    var lower := ToLower(value);
    if lower == "asset" then Asset
    else if lower == "equity" then Equity
    else if lower == "expense" then Expense
    else if lower == "income" then Income
    else if lower == "liability" then Liability
    else Other
  }

  /** Lower-casing yields a lower-case word exactly when the input equals
      that word up to case. */
  lemma ToLowerIsWord(s: string, w: string)
    requires IsLowerWord(w)
    ensures ToLower(s) == w <==> EqualIgnoringCase(s, w)
  {
    if EqualIgnoringCase(s, w) {
      assert forall i :: 0 <= i < |w| ==> LowerChar(w[i]) == w[i];
      assert ToLower(s) == w;
    }
  }

  /** Each variant is produced exactly by its own name written in any case,
      and `Other` exactly by every string that is none of the five names. */
  lemma FromNameCharacterization(s: string)
    ensures FromName(s) == Asset <==> EqualIgnoringCase(s, "asset")
    ensures FromName(s) == Equity <==> EqualIgnoringCase(s, "equity")
    ensures FromName(s) == Expense <==> EqualIgnoringCase(s, "expense")
    ensures FromName(s) == Income <==> EqualIgnoringCase(s, "income")
    ensures FromName(s) == Liability <==> EqualIgnoringCase(s, "liability")
    ensures FromName(s) == Other <==>
      !EqualIgnoringCase(s, "asset") && !EqualIgnoringCase(s, "equity") &&
      !EqualIgnoringCase(s, "expense") && !EqualIgnoringCase(s, "income") &&
      !EqualIgnoringCase(s, "liability")
  {
    ToLowerIsWord(s, "asset");
    ToLowerIsWord(s, "equity");
    ToLowerIsWord(s, "expense");
    ToLowerIsWord(s, "income");
    ToLowerIsWord(s, "liability");
  }

  /** The resolver cannot tell apart two strings that differ only in case. */
  lemma FromNameIgnoresCase(a: string, b: string)
    requires EqualIgnoringCase(a, b)
    ensures FromName(a) == FromName(b)
  {
    assert ToLower(a) == ToLower(b);
  }

  /** The crate's test inputs and a few more spellings. */
  lemma FromNameExamples()
    ensures FromName("asset") == Asset
    ensures FromName("ASSET") == Asset && FromName("AsSeT") == Asset
    ensures FromName("LiaBilIty") == Liability
    ensures FromName("Income") == Income
    ensures FromName("cash") == Other && FromName("") == Other
  {
    FromNameCharacterization("Income");
  }
}
