/** The size catalogue of standard_paper_sizes (src/lib.rs): a closed set of
    named paper, envelope, card and ID sizes, each mapped to the literal
    (width, height) pair the crate stores for it, in millimetres. */
module StandardPaperSizes {

  /** An extent in millimetres. The crate uses a 64-bit float; every literal in
      its table has at most one decimal place, so an exact real carries the
      same value without any rounding. */
  type Millimeters = real

  /** A width and a height, in millimetres, in the orientation given. */
  datatype Dimensions = Dimensions(width: Millimeters, height: Millimeters)
  {
    /** Builds the value from a raw (width, height) pair, keeping the order. */
    static function From(value: (Millimeters, Millimeters)): (d: Dimensions)
      ensures d.width == value.0 && d.height == value.1
    {
      Dimensions(value.0, value.1)
    }
  }

  /** Every named size the catalogue knows, in declaration order. Several names
      are aliases: distinct identifiers that denote the same physical size. */
  datatype Type =
      // Standard US Sizes
        UsLetter // alias of AnsiA
      | UsLegal
      | UsLedger // alias of AnsiB
      | UsTabloid // alias of AnsiB
      | UsExecutive
      | UsJuniorLegal
      | UsHalfLetter
      | UsGovernmentLetter
      | UsGovernmentLegal

      // US Envelope Sizes
      | UsEnvelope6_25
      | UsEnvelope6_75
      | UsEnvelope7
      | UsEnvelope7_75Monarch
      | UsEnvelope8_625
      | UsEnvelope9
      | UsEnvelope10
      | UsEnvelope11
      | UsEnvelope12
      | UsEnvelope14
      | UsEnvelope16
      | UsEnvelopeA1
      | UsEnvelopeA2LadyGrey
      | UsEnvelopeA4
      | UsEnvelopeA6Thompsons
      | UsEnvelopeA7Besselheim
      | UsEnvelopeA8Carrs
      | UsEnvelopeA9Diplomat
      | UsEnvelopeA10Willow
      | UsEnvelopeALong
      | UsEnvelope1
      | UsEnvelope1_75
      | UsEnvelope3
      | UsEnvelope6
      | UsEnvelope8
      | UsEnvelope9_75
      | UsEnvelope10_5
      | UsEnvelope12_5
      | UsEnvelope13_5
      | UsEnvelope14_5
      | UsEnvelope15
      | UsEnvelope15_5

      // ISO Envelopes
      | IsoEnvelopeDL
      | IsoEnvelopeB4
      | IsoEnvelopeB5
      | IsoEnvelopeB6
      | IsoEnvelopeC3
      | IsoEnvelopeC4
      | IsoEnvelopeC4M
      | IsoEnvelopeC5
      | IsoEnvelopeC6
      | IsoEnvelopeC64M
      | IsoEnvelopeC7
      | IsoEnvelopeCE4
      | IsoEnvelopeCE64
      | IsoEnvelopeE4
      | IsoEnvelopeEC45
      | IsoEnvelopeEC5
      | IsoEnvelopeE5
      | IsoEnvelopeE56
      | IsoEnvelopeE6
      | IsoEnvelopeE65
      | IsoEnvelopeR7
      | IsoEnvelopeS4
      | IsoEnvelopeS5
      | IsoEnvelopeS65
      | IsoEnvelopeX5
      | IsoEnvelopeEX5

      // Business cards
      | UsBusinessCard
      | Iso216BusinessCard
      | EuropeanBusinessCard
      | ScandinavianBusinessCard
      | ChineseBusinessCard
      | JapaneseBusinessCard
      | IranianBusinessCarad
      | HungarianBusinessCard

      // IDs and credit cards
      | Iso7810Id1
      | CR80 // alias of Iso7810Id1
      | TD1 // alias of Iso7810Id1
      | CreditCard // alias of Iso7810Id1
      | Iso7810Id2
      | Visa // alias of Iso7810Id2
      | Iso7810Id3
      | Passport // alias of Iso7810Id3
      | Iso7810Id0000
      | MiniSIM // alias of Iso7810Id0000

      // ISO A Sizes
      | IsoA0
      | IsoA1
      | IsoA2
      | IsoA3
      | IsoA4
      | IsoA5
      | IsoA6
      | IsoA7
      | IsoA8
      | IsoA9
      | IsoA10
      | IsoA11
      | IsoA12
      | IsoA13
      | Iso2A0
      | Iso4A0
      | IsoA0Plus
      | IsoA1Plus
      | IsoA3Plus

      // ISO B Sizes
      | IsoB0
      | IsoB1
      | IsoB2
      | IsoB3
      | IsoB4
      | IsoB5
      | IsoB6
      | IsoB7
      | IsoB8
      | IsoB9
      | IsoB10
      | IsoB11
      | IsoB12
      | IsoB13
      | IsoB0Plus
      | IsoB1Plus
      | IsoB2Plus

      // ISO C Sizes
      | IsoC0
      | IsoC1
      | IsoC2
      | IsoC3
      | IsoC4
      | IsoC5
      | IsoC6
      | IsoC7
      | IsoC8
      | IsoC9
      | IsoC10

      // North American ANSI Sizes
      | AnsiE
      | AnsiD
      | AnsiC
      | AnsiB
      | AnsiA

      // North American ARCH Sizes
      | ArchE3
      | ArchE2
      | ArchE1
      | ArchE
      | ArchD
      | ArchC
      | ArchB
      | ArchA
  {
    /** The canonical size of this identifier; today the millimetre table. */
    function Size(): (d: Dimensions)
      ensures d == Millimeters()
    {
      Millimeters()
    }

    /** The stored dimensions of this identifier, exactly as authored: no
        rounding, and no swapping of the pair into portrait or landscape.
        The match is exhaustive, so every identifier has a size. */
    function Millimeters(): (d: Dimensions)
      ensures d.width > 0.0 && d.height > 0.0
    {
      var value :=
        match this
          // Standard US Sizes
          case UsLetter => (216.0, 279.0)
          case UsLegal => (215.9, 355.6)
          case UsLedger => (279.0, 432.0)
          case UsTabloid => (279.0, 432.0)
          case UsExecutive => (190.5, 254.0)
          case UsJuniorLegal => (203.2, 127.0)
          case UsHalfLetter => (140.0, 216.0)
          case UsGovernmentLetter => (203.0, 267.0)
          case UsGovernmentLegal => (216.0, 330.0)

          // Business cards
          case UsBusinessCard => (88.9, 50.8)
          case Iso216BusinessCard => (74.0, 52.0)
          case EuropeanBusinessCard => (85.0, 55.0)
          case ScandinavianBusinessCard => (90.0, 55.0)
          case ChineseBusinessCard => (90.0, 54.0)
          case JapaneseBusinessCard => (91.0, 55.0)
          case IranianBusinessCarad => (85.0, 48.0)
          case HungarianBusinessCard => (90.0, 50.0)

          // IDs and credit cards
          case Iso7810Id1 => (85.6, 54.0)
          case CR80 => (85.6, 54.0)
          case TD1 => (85.6, 54.0)
          case CreditCard => (85.6, 54.0)
          case Iso7810Id2 => (105.0, 74.0)
          case Visa => (105.0, 74.0)
          case Iso7810Id3 => (125.0, 88.0)
          case Passport => (125.0, 88.0)
          case Iso7810Id0000 => (25.0, 15.0)
          case MiniSIM => (25.0, 15.0)

          // US Envelope Sizes
          case UsEnvelope6_25 => (152.0, 89.0)
          case UsEnvelope6_75 => (165.0, 92.0)
          case UsEnvelope7 => (172.0, 95.0)
          case UsEnvelope7_75Monarch => (191.0, 98.0)
          case UsEnvelope8_625 => (219.0, 92.0)
          case UsEnvelope9 => (225.0, 98.0)
          case UsEnvelope10 => (241.0, 104.0)
          case UsEnvelope11 => (264.0, 114.0)
          case UsEnvelope12 => (279.0, 121.0)
          case UsEnvelope14 => (292.0, 127.0)
          case UsEnvelope16 => (305.0, 152.0)
          case UsEnvelopeA1 => (92.0, 130.0)
          case UsEnvelopeA2LadyGrey => (146.0, 111.0)
          case UsEnvelopeA4 => (159.0, 108.0)
          case UsEnvelopeA6Thompsons => (165.0, 121.0)
          case UsEnvelopeA7Besselheim => (184.0, 133.0)
          case UsEnvelopeA8Carrs => (206.0, 140.0)
          case UsEnvelopeA9Diplomat => (222.0, 146.0)
          case UsEnvelopeA10Willow => (241.0, 152.0)
          case UsEnvelopeALong => (225.0, 98.0)
          case UsEnvelope1 => (229.0, 152.0)
          case UsEnvelope1_75 => (241.0, 152.0)
          case UsEnvelope3 => (254.0, 178.0)
          case UsEnvelope6 => (267.0, 191.0)
          case UsEnvelope8 => (286.0, 210.0)
          case UsEnvelope9_75 => (286.0, 222.0)
          case UsEnvelope10_5 => (305.0, 229.0)
          case UsEnvelope12_5 => (318.0, 241.0)
          case UsEnvelope13_5 => (330.0, 254.0)
          case UsEnvelope14_5 => (368.0, 292.0)
          case UsEnvelope15 => (381.0, 254.0)
          case UsEnvelope15_5 => (394.0, 305.0)

          // ISO Envelopes
          case IsoEnvelopeDL => (110.0, 220.0)
          case IsoEnvelopeB4 => (250.0, 353.0)
          case IsoEnvelopeB5 => (176.0, 250.0)
          case IsoEnvelopeB6 => (125.0, 176.0)
          case IsoEnvelopeC3 => (324.0, 458.0)
          case IsoEnvelopeC4 => (229.0, 324.0)
          case IsoEnvelopeC4M => (318.0, 229.0)
          case IsoEnvelopeC5 => (162.0, 229.0)
          case IsoEnvelopeC6 => (114.0, 162.0)
          case IsoEnvelopeC64M => (318.0, 114.0)
          case IsoEnvelopeC7 => (81.0, 114.0)
          case IsoEnvelopeCE4 => (229.0, 310.0)
          case IsoEnvelopeCE64 => (114.0, 310.0)
          case IsoEnvelopeE4 => (220.0, 312.0)
          case IsoEnvelopeEC45 => (220.0, 229.0)
          case IsoEnvelopeEC5 => (155.0, 229.0)
          case IsoEnvelopeE5 => (115.0, 220.0)
          case IsoEnvelopeE56 => (155.0, 155.0)
          case IsoEnvelopeE6 => (110.0, 155.0)
          case IsoEnvelopeE65 => (110.0, 220.0)
          case IsoEnvelopeR7 => (120.0, 135.0)
          case IsoEnvelopeS4 => (250.0, 330.0)
          case IsoEnvelopeS5 => (185.0, 255.0)
          case IsoEnvelopeS65 => (110.0, 225.0)
          case IsoEnvelopeX5 => (105.0, 216.0)
          case IsoEnvelopeEX5 => (155.0, 216.0)

          // ISO A Sizes
          case IsoA0 => (841.0, 1189.0)
          case IsoA1 => (594.0, 841.0)
          case IsoA2 => (420.0, 594.0)
          case IsoA3 => (297.0, 420.0)
          case IsoA4 => (210.0, 297.0)
          case IsoA5 => (148.0, 210.0)
          case IsoA6 => (105.0, 148.0)
          case IsoA7 => (74.0, 105.0)
          case IsoA8 => (52.0, 74.0)
          case IsoA9 => (37.0, 52.0)
          case IsoA10 => (26.0, 37.0)
          case IsoA11 => (18.0, 24.0)
          case IsoA12 => (13.0, 18.0)
          case IsoA13 => (9.0, 13.0)
          case Iso2A0 => (1189.0, 1682.0)
          case Iso4A0 => (1682.0, 2378.0)
          case IsoA0Plus => (914.0, 1292.0)
          case IsoA1Plus => (609.0, 914.0)
          case IsoA3Plus => (329.0, 483.0)

          // ISO B Sizes
          case IsoB0 => (1000.0, 1414.0)
          case IsoB1 => (707.0, 1000.0)
          case IsoB2 => (500.0, 707.0)
          case IsoB3 => (353.0, 500.0)
          case IsoB4 => (250.0, 353.0)
          case IsoB5 => (176.0, 250.0)
          case IsoB6 => (125.0, 176.0)
          case IsoB7 => (88.0, 125.0)
          case IsoB8 => (62.0, 88.0)
          case IsoB9 => (44.0, 62.0)
          case IsoB10 => (31.0, 44.0)
          case IsoB11 => (22.0, 31.0)
          case IsoB12 => (15.0, 22.0)
          case IsoB13 => (11.0, 15.0)
          case IsoB0Plus => (1118.0, 1580.0)
          case IsoB1Plus => (720.0, 1020.0)
          case IsoB2Plus => (520.0, 720.0)

          // ISO C Sizes
          case IsoC0 => (917.0, 1297.0)
          case IsoC1 => (648.0, 917.0)
          case IsoC2 => (458.0, 648.0)
          case IsoC3 => (324.0, 458.0)
          case IsoC4 => (229.0, 324.0)
          case IsoC5 => (162.0, 229.0)
          case IsoC6 => (114.0, 162.0)
          case IsoC7 => (81.0, 114.0)
          case IsoC8 => (57.0, 81.0)
          case IsoC9 => (40.0, 57.0)
          case IsoC10 => (28.0, 40.0)

          // North American ANSI Sizes
          case AnsiE => (1118.0, 864.0)
          case AnsiD => (559.0, 864.0)
          case AnsiC => (432.0, 559.0)
          case AnsiB => (279.0, 432.0)
          case AnsiA => (216.0, 279.0)

          // North American ARCH Sizes
          case ArchE3 => (686.0, 991.0)
          case ArchE2 => (660.0, 965.0)
          case ArchE1 => (762.0, 1067.0)
          case ArchE => (1914.0, 1219.0)
          case ArchD => (610.0, 914.0)
          case ArchC => (457.0, 610.0)
          case ArchB => (305.0, 457.0)
          case ArchA => (229.0, 305.0);
      Dimensions.From(value)
    }
  }
}
