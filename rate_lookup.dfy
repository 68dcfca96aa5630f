/** Per-bank lookups of the monthly rate-curve generator (Run.py): current
    rates and additive adjustments, both chosen by the first bank-name
    substring that matches, in a fixed order. */
module RateLookup {

  predicate IsPrefix(p: string, s: string)
  {
    |p| <= |s| && s[..|p|] == p
  }

  /** Python's `p in s` on strings: p occurs somewhere in s. */
  predicate Contains(s: string, p: string)
  {
    exists i | 0 <= i <= |s| - |p| :: IsPrefix(p, s[i..])
  }

  /** A pattern holding a character the name lacks cannot occur in it. */
  lemma NotContainsByChar(s: string, p: string, ch: char)
    requires ch in p && ch !in s
    ensures !Contains(s, p)
  {
  }

  /** A name containing p + q contains p and contains q. */
  lemma ContainsParts(s: string, p: string, q: string)
    requires Contains(s, p + q)
    ensures Contains(s, p) && Contains(s, q)
  {
    var i :| 0 <= i <= |s| - |p + q| && IsPrefix(p + q, s[i..]);
    assert s[i..][..|p|] == (p + q)[..|p|] == p;
    assert IsPrefix(p, s[i..]);
    assert s[i + |p|..][..|q|] == (p + q)[|p|..] == q;
    assert IsPrefix(q, s[i + |p|..]);
  }

  /** The substrings tested by the current-rate lookup, in order. */
  const RatePatterns: seq<string> :=
    ["Crédit Agricole", "BLR", "Banque de La Réunion", "BFC", "Société Générale", "BNP",
     "Populaire", "Épargne", "CIOI", "HSBC", "CIC"]

  /** The (deposit, lending) pair each pattern selects, in the same order. */
  const PatternRates: seq<(real, real)> :=
    [(1.5, 3.5), (1.6, 3.6), (1.6, 3.6), (1.4, 3.4), (1.3, 3.7), (1.2, 3.8),
     (1.5, 3.5), (1.4, 3.4), (1.8, 3.2), (1.1, 3.9), (1.3, 3.6)]

  /** Pattern i is the first of the list that occurs in the name. */
  predicate FirstMatchAt(bank: string, i: int)
  {
    0 <= i < |RatePatterns| && Contains(bank, RatePatterns[i])
    && forall j :: 0 <= j < i ==> !Contains(bank, RatePatterns[j])
  }

  predicate MatchesNoRatePattern(bank: string)
  {
    forall j :: 0 <= j < |RatePatterns| ==> !Contains(bank, RatePatterns[j])
  }

  /** The bank's current (deposit, lending) rates in percent: the pair of the
      first pattern occurring in the name; a name matching none gets
      (1.5, 3.5). Every answer keeps the deposit rate below the lending rate. */
  function CurrentRates(bank: string): (r: (real, real))
    ensures forall i :: FirstMatchAt(bank, i) ==> r == PatternRates[i]
    ensures MatchesNoRatePattern(bank) ==> r == (1.5, 3.5)
    ensures 1.1 <= r.0 <= 1.8 && 3.2 <= r.1 <= 3.9 && r.0 < r.1
  {
    assert RatePatterns[0] == "Crédit Agricole" && RatePatterns[1] == "BLR" && RatePatterns[2] == "Banque de La Réunion"
      && RatePatterns[3] == "BFC" && RatePatterns[4] == "Société Générale" && RatePatterns[5] == "BNP"
      && RatePatterns[6] == "Populaire" && RatePatterns[7] == "Épargne" && RatePatterns[8] == "CIOI"
      && RatePatterns[9] == "HSBC" && RatePatterns[10] == "CIC";
    if Contains(bank, "Crédit Agricole") then (1.5, 3.5)
    else if Contains(bank, "BLR") || Contains(bank, "Banque de La Réunion") then (1.6, 3.6)
    else if Contains(bank, "BFC") then (1.4, 3.4)
    else if Contains(bank, "Société Générale") then (1.3, 3.7)
    else if Contains(bank, "BNP") then (1.2, 3.8)
    else if Contains(bank, "Populaire") then (1.5, 3.5)
    else if Contains(bank, "Épargne") then (1.4, 3.4)
    else if Contains(bank, "CIOI") then (1.8, 3.2)
    else if Contains(bank, "HSBC") then (1.1, 3.9)
    else if Contains(bank, "CIC") then (1.3, 3.6)
    else (1.5, 3.5)
  }

  /** The rate families the adjustment lookup is asked about. */
  datatype RateKind = Deposit | Lending | Mortgage | CorporateDeposit | CorporateLending

  /** The years 2002..2025 every non-empty adjustment table covers. */
  predicate InAdjustmentRange(y: int)
  {
    2002 <= y <= 2025
  }

  function Uniform(v: real): (m: map<int, real>)
  {
    map y | 2002 <= y <= 2025 && InAdjustmentRange(y) :: v
  }

  /** The additive adjustment per year for a bank and rate family. The table
      is either empty or maps every year 2002..2025 to one constant. Names
      matching none of the four bank patterns get no adjustment. */
  function BankAdjustments(bank: string, kind: RateKind): (m: map<int, real>)
    ensures m == map[] || ((forall y :: y in m <==> InAdjustmentRange(y)) && forall y :: y in m ==> m[y] == m[2002])
    ensures (!Contains(bank, "Crédit Agricole") && !Contains(bank, "BLR") && !Contains(bank, "Banque de La Réunion")
             && !Contains(bank, "CIOI") && !Contains(bank, "HSBC")) ==> m == map[]
    ensures forall y :: y in m ==> -0.3 <= m[y] <= 0.3
  {
    if Contains(bank, "Crédit Agricole") then
      if kind in {Deposit, CorporateDeposit} then Uniform(0.1)
      else Uniform(-0.1)
    else if Contains(bank, "BLR") || Contains(bank, "Banque de La Réunion") then
      if kind in {Deposit, CorporateDeposit} then Uniform(0.2)
      else if kind in {Lending, Mortgage} then Uniform(0.1)
      else map[]
    else if Contains(bank, "CIOI") then
      if kind == Mortgage then Uniform(-0.3)
      else if kind in {Deposit, CorporateDeposit} then Uniform(0.3)
      else map[]
    else if Contains(bank, "HSBC") then
      if kind in {Lending, CorporateLending} then Uniform(0.2)
      else if kind in {Deposit, CorporateDeposit} then Uniform(-0.1)
      else map[]
    else map[]
  }

  /** The adjustment table's first value (that of 2002), or 0 when the
      table is empty; since the table is uniform it is the value of every
      year it covers. */
  function BankAdjustmentValue(bank: string, kind: RateKind): (v: real)
    ensures forall y :: y in BankAdjustments(bank, kind) ==> BankAdjustments(bank, kind)[y] == v
    ensures BankAdjustments(bank, kind) == map[] ==> v == 0.0
    ensures -0.3 <= v <= 0.3
  {
    var m := BankAdjustments(bank, kind);
    if m == map[] then 0.0 else m[2002]
  }

  // Three of the banks the comparative analysis selects.

  lemma CreditAgricoleCurrentRates()
    ensures CurrentRates("Crédit Agricole de La Réunion") == (1.5, 3.5)
  {
    assert IsPrefix("Crédit Agricole", "Crédit Agricole de La Réunion"[0..]);
  }

  lemma BlrCurrentRates()
    ensures CurrentRates("Banque de La Réunion (BLR)") == (1.6, 3.6)
  {
    var s := "Banque de La Réunion (BLR)";
    NotContainsByChar(s, "Crédit Agricole", 'A');
    assert IsPrefix("BLR", s[22..]);
  }

  lemma SocieteGeneraleCurrentRates()
    ensures CurrentRates("Société Générale Réunion") == (1.3, 3.7)
  {
    var s := "Société Générale Réunion";
    NotContainsByChar(s, "Crédit Agricole", 'A');
    NotContainsByChar(s, "BLR", 'B');
    NotContainsByChar(s, "Banque de La Réunion", 'B');
    NotContainsByChar(s, "BFC", 'B');
    assert IsPrefix("Société Générale", s[0..]);
  }

  /** Crédit Agricole: +0.1 on deposit rates, -0.1 on lending rates. */
  lemma CreditAgricoleAdjustments(bank: string)
    requires Contains(bank, "Crédit Agricole")
    ensures BankAdjustmentValue(bank, Deposit) == 0.1 && BankAdjustmentValue(bank, CorporateDeposit) == 0.1
    ensures BankAdjustmentValue(bank, Lending) == -0.1 && BankAdjustmentValue(bank, Mortgage) == -0.1
    ensures BankAdjustmentValue(bank, CorporateLending) == -0.1
  {
    assert 2002 in Uniform(0.1) && 2002 in Uniform(-0.1);
  }

  /** BLR has no corporate-lending adjustment. */
  lemma BlrHasNoCorporateLendingAdjustment()
    ensures BankAdjustments("Banque de La Réunion (BLR)", CorporateLending) == map[]
    ensures BankAdjustmentValue("Banque de La Réunion (BLR)", CorporateLending) == 0.0
  {
    NotContainsByChar("Banque de La Réunion (BLR)", "Crédit Agricole", 'A');
    assert IsPrefix("BLR", "Banque de La Réunion (BLR)"[22..]);
  }
}
