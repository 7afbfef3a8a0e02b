/** The text key of a branch: db_name, a colon and the branch number (cmd/daemon/worker.go, cmd/daemon/reconcile.go). */
module BranchKeys {
  import opened Text

  function BranchKey(dbName: string, branchID: int): string {
    dbName + ":" + Decimal(branchID)
  }

  function Prefix(dbName: string): string {
    dbName + ":"
  }

  /** What follows the last colon, or the whole text. */
  function AfterLastColon(s: string): string {
    if s == "" || s[|s| - 1] == ':' then "" else AfterLastColon(s[..|s| - 1]) + [s[|s| - 1]]
  }

  /** It is the longest end of the text without a colon. */
  lemma {:induction false} AfterLastColonIsLongest(s: string)
    ensures var t := AfterLastColon(s);
      && |t| <= |s| && s[|s| - |t|..] == t && ':' !in t && (|t| < |s| ==> s[|s| - |t| - 1] == ':')
  {
    if s != "" && s[|s| - 1] != ':' {
      var (front, last) := (s[..|s| - 1], s[|s| - 1]);
      AfterLastColonIsLongest(front);
      var t := AfterLastColon(front);
      assert s == front + [last];
      assert s[|s| - |t| - 1..] == front[|front| - |t|..] + [last];
    }
  }

  predicate AllDigits(s: string) {
    forall i | 0 <= i < |s| :: '0' <= s[i] <= '9'
  }

  /** The number a text is, and 0 when it is none. */
  function ReadNumber(t: string): int {
    if t == "" then 0
    else if t[0] == '-' && AllDigits(t[1..]) then 0 - ParseNat(t[1..])
    else if AllDigits(t) then ParseNat(t)
    else 0
  }

  /** The number a key ends with. */
  function BranchIDFromKey(key: string): int {
    ReadNumber(AfterLastColon(key))
  }

  lemma ReadsDecimal(n: int)
    ensures ReadNumber(Decimal(n)) == n
  {
    hide DecimalNat, ParseNat;
    DecimalSign(n);
    if n < 0 {
      assert Decimal(n)[1..] == DecimalNat(-n);
      ParseInvertsDecimalNat(-n);
    } else {
      ParseInvertsDecimalNat(n);
    }
  }

  lemma NoColonInDecimal(n: int)
    ensures ':' !in Decimal(n) && |Decimal(n)| > 0
  {
  }

  lemma {:induction false} AfterLastColonOf(a: string, t: string)
    requires ':' !in t
    ensures AfterLastColon(a + ":" + t) == t
    decreases |t|
  {
    var s := a + ":" + t;
    if t == "" {
      assert s[|s| - 1] == ':';
    } else {
      assert s[..|s| - 1] == a + ":" + t[..|t| - 1];
      assert s[|s| - 1] == t[|t| - 1] && t[|t| - 1] in t;
      AfterLastColonOf(a, t[..|t| - 1]);
    }
  }

  /** A key gives back its branch, whatever the database name holds. */
  lemma BranchIDOfKey(dbName: string, branchID: int)
    ensures BranchIDFromKey(BranchKey(dbName, branchID)) == branchID
  {
    hide ReadNumber, AfterLastColon;
    NoColonInDecimal(branchID);
    AfterLastColonOf(dbName, Decimal(branchID));
    ReadsDecimal(branchID);
  }

  /** A key names one branch of one database. */
  lemma BranchKeyIdentifies(a: string, m: int, b: string, n: int)
    ensures BranchKey(a, m) == BranchKey(b, n) <==> a == b && m == n
  {
    if BranchKey(a, m) == BranchKey(b, n) {
      BranchIDOfKey(a, m);
      BranchIDOfKey(b, n);
      assert BranchKey(a, m)[..|a|] == a && BranchKey(b, n)[..|b|] == b;
    }
  }

  lemma KeyHasPrefix(dbName: string, branchID: int)
    ensures HasPrefix(BranchKey(dbName, branchID), Prefix(dbName))
  {
  }

  lemma NoColonAfterName(dbName: string, branchID: int, i: nat)
    requires |dbName| < i < |BranchKey(dbName, branchID)|
    ensures BranchKey(dbName, branchID)[i] != ':'
  {
    NoColonInDecimal(branchID);
    assert BranchKey(dbName, branchID)[i] == Decimal(branchID)[i - |dbName| - 1];
    assert BranchKey(dbName, branchID)[i] in Decimal(branchID);
  }

  /** A prefix selects the keys of its own database, and those of databases whose name goes on after it with a colon. */
  lemma PrefixSelects(dbName: string, other: string, branchID: int)
    ensures HasPrefix(BranchKey(other, branchID), Prefix(dbName))
         <==> other == dbName || HasPrefix(other, Prefix(dbName))
  {
    var key, n := BranchKey(other, branchID), |dbName|;
    if HasPrefix(other, Prefix(dbName)) {
      assert key[..n + 1] == other[..n + 1];
    }
    if HasPrefix(key, Prefix(dbName)) {
      assert key[..n + 1] == Prefix(dbName) && key[n] == ':';
      if n < |other| { assert other[..n + 1] == key[..n + 1]; }
      if n == |other| { assert other == key[..n]; }
      if n > |other| { NoColonAfterName(other, branchID, n); }
    }
  }

  lemma PrefixHasColon(dbName: string, other: string)
    ensures HasPrefix(other, Prefix(dbName)) ==> ':' in other
  {
    if HasPrefix(other, Prefix(dbName)) { assert other[|dbName|] == ':'; }
  }
}
