# standard_paper_sizes in Dafny

This project models the size catalogue of the Rust crate `standard_paper_sizes`.
The crate has a closed enum `Type` of named paper, envelope, business-card,
ID-card, ISO A/B/C, ANSI and ARCH sizes. For each name, `Type::millimeters`
gives the literal `(width, height)` pair the crate stores, in millimetres.
`Type::size` is the canonical accessor and today just forwards to
`millimeters`. The value type `Dimensions` is built from a raw pair by
`From<(f64, f64)>`.

Layout:

- `paper_sizes.dfy`, module `StandardPaperSizes`: the contents of
  `src/lib.rs`. It holds the `Millimeters` extent type, the `Dimensions`
  datatype with its `From` constructor function, and the `Type` datatype
  with one constructor per enum variant in declaration order. `Type` has the
  member functions `Size` and `Millimeters`, and `Millimeters` is the crate's
  match table, arm for arm.
- `catalogue_facts.dfy`, module `CatalogueFacts`: lemmas about the table.
  They cover the documented aliases, the authored orientation, spot values
  and the `From` round trip.

Extents are exact Dafny `real`s instead of `f64`. Every literal in the table
has at most one decimal place, for example 215.9 or 85.6, so each real
equals the literal as the source writes it. No floating-point reasoning is
needed. The `Type` match is exhaustive, so every name has a size. Dafny
checks this when it resolves the function.

## Model

| member | source | states |
|---|---|---|
| `StandardPaperSizes.Type.Millimeters` | src/lib.rs:195-364 | Total over every variant. Both the width and the height of every stored pair are strictly positive. |
| `StandardPaperSizes.Type.Size` | src/lib.rs:191-193 | For every variant, `Size` returns the same Dimensions as `Millimeters`, width and height alike. |
| `StandardPaperSizes.Dimensions.From` | src/lib.rs:381-388 | The width is the first component of the pair and the height is the second. The pair is not reordered. |
| `CatalogueFacts.FromRoundTrip` | src/lib.rs:381-387 | Building from a pair and reading both fields gives back the pair. Every Dimensions value equals the one built from its own fields. |
| `CatalogueFacts.Id1Aliases` | src/lib.rs:220-223 | Iso7810Id1, CR80, TD1 and CreditCard all resolve to exactly (85.6, 54.0). The enum marks the last three as the same as Iso7810Id1 (lines 108-111). |
| `CatalogueFacts.Id2Aliases` | src/lib.rs:224-225 | Iso7810Id2 and Visa both resolve to (105.0, 74.0). |
| `CatalogueFacts.Id3Aliases` | src/lib.rs:226-227 | Iso7810Id3 and Passport both resolve to (125.0, 88.0). |
| `CatalogueFacts.Id000Aliases` | src/lib.rs:228-229 | Iso7810Id0000 and MiniSIM both resolve to (25.0, 15.0). |
| `CatalogueFacts.LedgerAliases` | src/lib.rs:201-202 | UsLedger, UsTabloid and AnsiB (line 350) all resolve to (279.0, 432.0), as the enum's comments on lines 27-28 say. |
| `CatalogueFacts.LetterAliases` | src/lib.rs:199 | UsLetter and AnsiA (line 351) both resolve to (216.0, 279.0), as the comment on line 25 says. |
| `CatalogueFacts.ArchEStored` | src/lib.rs:357 | ArchE is stored as (1914.0, 1219.0), wider than tall, exactly as written. |
| `CatalogueFacts.AnsiEStored` | src/lib.rs:347 | AnsiE is stored as (1118.0, 864.0), wider than tall. |
| `CatalogueFacts.UsJuniorLegalStored` | src/lib.rs:204 | UsJuniorLegal is stored as (203.2, 127.0), wider than tall. |
| `CatalogueFacts.IsoEnvelopeC4MStored` | src/lib.rs:272 | IsoEnvelopeC4M is stored as (318.0, 229.0), wider than tall. |
| `CatalogueFacts.IsoA4Stored` | src/lib.rs:298 | IsoA4 is stored as (210.0, 297.0), taller than wide. |
| `CatalogueFacts.NotNormalised` | src/lib.rs:197-362 | The table is not normalised to one orientation. Some variant is wider than tall and some variant is taller than wide. |
| `CatalogueFacts.IsoA4Size` | src/lib.rs:191-193 | Looking up IsoA4 through `Size` gives (210.0, 297.0). |
| `CatalogueFacts.UsLegalSize` | src/lib.rs:200 | US Legal is exactly (215.9, 355.6), with no rounding of the fractional millimetres. |
| `CatalogueFacts.FromMatchesId1` | src/lib.rs:220 | `Dimensions.From((85.6, 54.0))` equals the Iso7810Id1 entry of the table. |

## Left out

- The `Display` implementation (src/lib.rs:375-379) is not modelled. It writes `"{}x{}"` using Rust's default shortest round-trip text for `f64`, which is float formatting that an exact real does not determine.
- The IEEE-754 semantics of `Millimeters = f64` (src/lib.rs:367) are not modelled. Extents are exact reals equal to the source literals. The model says nothing about `From` inputs such as NaN, infinities or negative zero.
- `#[non_exhaustive]` and the `Debug`, `Copy` and `Clone` derives (src/lib.rs:21-22, 369) are not modelled. They are Rust API attributes with no behaviour. Inside this model the enum is closed.
- The alias lemmas state only that every name in a group resolves to the group's size. They do not state that no other name shares that size. Other variants do share sizes with no comment in the source: UsEnvelope9 and UsEnvelopeALong, UsEnvelopeA10Willow and UsEnvelope1_75, IsoEnvelopeDL and IsoEnvelopeE65, and the ISO B4-B6 and C3-C7 envelopes with the matching ISO B and C sheets.
