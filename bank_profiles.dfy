/** Bank profiles of the yearly financial-table generator (Ru.py) and the
    validated menu choice of its command-line entry point. */
module BankProfiles {

  datatype Option<T> = None | Some(value: T)

  /** The institution type. The source keeps it as a string and only ever
      compares it with "cooperative" and "mutualiste"; every other value takes
      the commercial branch, so three variants cover all profiles. */
  datatype InstitutionType = Cooperative | Mutualiste | Commerciale

  /** One bank's static parameters: balance-sheet and revenue bases (millions
      of euros), type, specialisation tags and market scope. */
  datatype BankConfig = BankConfig(
    assetsBase: real,
    revenueBase: real,
    kind: InstitutionType,
    specialites: seq<string>,
    marche: seq<string>)

  /** The profile used for every name the registry does not know. */
  const DefaultConfig: BankConfig :=
    BankConfig(1500.0, 120.0, Commerciale, ["particuliers", "petites_entreprises"], ["local"])

  /** The registry, keyed by exact bank name; it also holds the literal key
      "default", which maps to the default profile. */
  const Configs: map<string, BankConfig> := map[
    "Crédit Agricole de la Réunion" :=
      BankConfig(8500.0, 450.0, Cooperative, ["agriculture", "pmie", "particuliers", "immobilier"], ["local", "regional"]),
    "Banque de la Réunion" :=
      BankConfig(4200.0, 280.0, Commerciale, ["entreprises", "professionnels", "credit_bail"], ["local", "dom"]),
    "Société Générale Réunion" :=
      BankConfig(6800.0, 380.0, Commerciale, ["grands_comptes", "banque_privee", "international"], ["local", "national", "international"]),
    "BNP Paribas Réunion" :=
      BankConfig(7200.0, 410.0, Commerciale, ["corporates", "banque_investissement", "marches"], ["local", "national", "international"]),
    "Caisse d'Epargne Réunion" :=
      BankConfig(3500.0, 220.0, Mutualiste, ["epargne", "habitat", "social"], ["local", "regional"]),
    "Banque Française Commerciale Océan Indien" :=
      BankConfig(2800.0, 180.0, Commerciale, ["commerce", "tourisme", "professions_liberales"], ["regional", "ocean_indien"]),
    "default" := DefaultConfig
  ]

  /** Registry lookup with graceful fallback: an unknown name is not an error,
      it yields the small commercial default profile. Every profile has
      positive bases. */
  function GetBankConfig(bank: string): (c: BankConfig)
    ensures bank in Configs ==> c == Configs[bank]
    ensures bank !in Configs ==>
      && c.assetsBase == 1500.0 && c.revenueBase == 120.0 && c.kind == Commerciale
      && c.specialites == ["particuliers", "petites_entreprises"] && c.marche == ["local"]
    ensures c.assetsBase > 0.0 && c.revenueBase > 0.0
  {
    if bank in Configs then Configs[bank] else Configs["default"]
  }

  /** The menu offered by the entry point, in display order (numbered from 1). */
  const Banques: seq<string> := [
    "Crédit Agricole de la Réunion",
    "Banque de la Réunion",
    "Société Générale Réunion",
    "BNP Paribas Réunion",
    "Caisse d'Epargne Réunion",
    "Banque Française Commerciale Océan Indien"
  ]

  /** The bank chosen from the menu. `None` stands for an answer that is not an
      integer; any answer outside 1..|Banques| falls back to Crédit Agricole. */
  function ChooseBank(choix: Option<int>): (bank: string)
    ensures bank in Banques
    ensures choix.Some? && 1 <= choix.value <= |Banques| ==> bank == Banques[choix.value - 1]
    ensures !(choix.Some? && 1 <= choix.value <= |Banques|) ==> bank == "Crédit Agricole de la Réunion"
  {
    match choix
    case Some(n) => if n < 1 || n > |Banques| then "Crédit Agricole de la Réunion" else Banques[n - 1]
    case None => "Crédit Agricole de la Réunion"
  }

  /** Whatever the user types, the analysed bank has its own registry entry,
      never the default profile. */
  lemma ChosenBankHasOwnProfile(choix: Option<int>)
    ensures ChooseBank(choix) in Configs
    ensures GetBankConfig(ChooseBank(choix)) != DefaultConfig
  {
    var bank := ChooseBank(choix);
    var i :| 0 <= i < |Banques| && Banques[i] == bank;
    assert Configs[bank].assetsBase != 1500.0 by {
      if i == 0 {} else if i == 1 {} else if i == 2 {} else if i == 3 {} else if i == 4 {} else {}
    }
  }
}
