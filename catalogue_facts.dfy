/** Facts about the size table of StandardPaperSizes: which names share a
    size, that each pair keeps the orientation it was authored in, and spot
    values looked up through the public accessors. */
module CatalogueFacts {
  import opened StandardPaperSizes

  /** Building Dimensions from a pair and reading the fields back gives the
      pair, and every Dimensions value is the one built from its own fields. */
  lemma FromRoundTrip(value: (Millimeters, Millimeters), d: Dimensions)
    ensures (Dimensions.From(value).width, Dimensions.From(value).height) == value
    ensures Dimensions.From((d.width, d.height)) == d
  {
  }

  // Documented aliases: every name of a group resolves to the same size.

  /** ISO/IEC 7810 ID-1, CR80, TD1 and the credit card. */
  lemma Id1Aliases(t: Type)
    requires t.Iso7810Id1? || t.CR80? || t.TD1? || t.CreditCard?
    ensures t.Millimeters() == Dimensions(85.6, 54.0)
  {
  }

  /** ISO/IEC 7810 ID-2 and the visa. */
  lemma Id2Aliases(t: Type)
    requires t.Iso7810Id2? || t.Visa?
    ensures t.Millimeters() == Dimensions(105.0, 74.0)
  {
  }

  /** ISO/IEC 7810 ID-3 and the passport. */
  lemma Id3Aliases(t: Type)
    requires t.Iso7810Id3? || t.Passport?
    ensures t.Millimeters() == Dimensions(125.0, 88.0)
  {
  }

  /** ISO/IEC 7810 ID-000 and the mini-SIM. */
  lemma Id000Aliases(t: Type)
    requires t.Iso7810Id0000? || t.MiniSIM?
    ensures t.Millimeters() == Dimensions(25.0, 15.0)
  {
  }

  /** US Ledger, US Tabloid and ANSI B. */
  lemma LedgerAliases(t: Type)
    requires t.UsLedger? || t.UsTabloid? || t.AnsiB?
    ensures t.Millimeters() == Dimensions(279.0, 432.0)
  {
  }

  /** US Letter and ANSI A. */
  lemma LetterAliases(t: Type)
    requires t.UsLetter? || t.AnsiA?
    ensures t.Millimeters() == Dimensions(216.0, 279.0)
  {
  }

  // Pairs are kept in the orientation they were authored in.

  /** ARCH E is stored wider than tall. */
  lemma ArchEStored()
    ensures ArchE.Millimeters() == Dimensions(1914.0, 1219.0)
  {
  }

  /** ANSI E is stored wider than tall. */
  lemma AnsiEStored()
    ensures AnsiE.Millimeters() == Dimensions(1118.0, 864.0)
  {
  }

  /** US Junior Legal is stored wider than tall. */
  lemma UsJuniorLegalStored()
    ensures UsJuniorLegal.Millimeters() == Dimensions(203.2, 127.0)
  {
  }

  /** The ISO C4M envelope is stored wider than tall. */
  lemma IsoEnvelopeC4MStored()
    ensures IsoEnvelopeC4M.Millimeters() == Dimensions(318.0, 229.0)
  {
  }

  /** ISO A4 is stored taller than wide. */
  lemma IsoA4Stored()
    ensures IsoA4.Millimeters() == Dimensions(210.0, 297.0)
  {
  }

  /** The table is not normalised to one orientation: it holds an entry that
      is wider than tall and one that is taller than wide. */
  lemma NotNormalised()
    ensures exists t: Type :: t.Millimeters().width > t.Millimeters().height
    ensures exists t: Type :: t.Millimeters().width < t.Millimeters().height
  {
    ArchEStored();
    IsoA4Stored();
  }

  // Spot values through the canonical accessor and through From.

  /** ISO A4 through Size. */
  lemma IsoA4Size()
    ensures IsoA4.Size() == Dimensions(210.0, 297.0)
  {
  }

  /** US Legal through Size, with its fractional millimetres exact. */
  lemma UsLegalSize()
    ensures UsLegal.Size() == Dimensions(215.9, 355.6)
  {
  }

  /** A pair given directly equals the ID-1 entry of the table. */
  lemma FromMatchesId1()
    ensures Dimensions.From((85.6, 54.0)) == Iso7810Id1.Millimeters()
  {
  }
}
