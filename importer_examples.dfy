/**
 * Worked column names for the importer's header guessing and row checks:
 * padding and case are ignored, the first rule in table order wins, an
 * unknown header is kept as written, and colliding headers keep the last value.
 */
module ImporterExamples {
  import opened Options
  import opened Importer

  /* ---- "  Name " and "NAME" both select name ---- */

  lemma PaddedNameNormal()
    ensures NormalizeKey("  Name ") == "name"
  {
    var lowered := "  name ";
    assert ToLower("  Name ") == lowered;
    assert LeadingSpace(lowered[2..]) == 0;
    assert LeadingSpace(lowered[1..]) == 1;
    assert LeadingSpace(lowered) == 2;
    var rest := lowered[2..];
    assert rest == "name ";
    assert TrailingSpace(rest[..4]) == 0;
    assert TrailingSpace(rest) == 1;
    assert rest[..4] == "name";
  }

  lemma UpperNameNormal()
    ensures NormalizeKey("NAME") == "name"
  {
    assert ToLower("NAME") == "name";
    TrimUnpadded("name");
  }

  lemma NameHeadersExample()
    ensures GuessField("  Name ") == NameField
    ensures GuessField("NAME") == NameField
  {
    PaddedNameNormal();
    UpperNameNormal();
    NameHitsName();
  }

  /* ---- "unit_price": price is tried before unit ---- */

  lemma UnitPriceNormal()
    ensures NormalizeKey("unit_price") == "unit_price"
  {
    assert ToLower("unit_price") == "unit_price";
    TrimUnpadded("unit_price");
  }

  lemma UnitPriceSkipsName()
    ensures !Includes("unit_price", NameField)
  {
    MissingCharExcludes("unit_price", NameField, 'a');
  }

  lemma UnitPriceHitsPrice()
    ensures Includes("unit_price", PricePattern)
  {
    assert "unit_price"[5..10] == PricePattern;
    OccursInside("unit_price", PricePattern, 5);
  }

  lemma UnitPriceExample()
    ensures GuessField("unit_price") == PricePerUnitField
  {
    UnitPriceNormal();
    UnitPriceSkipsName();
    UnitPriceHitsPrice();
  }

  /* ---- "Fornitore": no rule applies, the header is kept as written ---- */

  lemma FornitoreNormal()
    ensures NormalizeKey("Fornitore") == "fornitore"
  {
    assert ToLower("Fornitore") == "fornitore";
    TrimUnpadded("fornitore");
  }

  lemma FornitoreSkipsName() ensures !Includes("fornitore", NameField) { MissingCharExcludes("fornitore", NameField, 'a'); }
  lemma FornitoreSkipsPrice() ensures !Includes("fornitore", PricePattern) { MissingCharExcludes("fornitore", PricePattern, 'p'); }
  lemma FornitoreSkipsUnit() ensures !Includes("fornitore", UnitField) { MissingCharExcludes("fornitore", UnitField, 'u'); }
  lemma FornitoreSkipsCategory() ensures !Includes("fornitore", CategoryField) { MissingCharExcludes("fornitore", CategoryField, 'c'); }
  lemma FornitoreSkipsSupplier() ensures !Includes("fornitore", SupplierPattern) { MissingCharExcludes("fornitore", SupplierPattern, 's'); }
  lemma FornitoreSkipsYield() ensures !Includes("fornitore", YieldPattern) { MissingCharExcludes("fornitore", YieldPattern, 'y'); }
  lemma FornitoreSkipsComponents() ensures !Includes("fornitore", ComponentsField) { MissingCharExcludes("fornitore", ComponentsField, 'c'); }

  lemma UnknownHeaderExample()
    ensures GuessField("Fornitore") == "Fornitore"
  {
    FornitoreNormal();
    FornitoreSkipsName();
    FornitoreSkipsPrice();
    FornitoreSkipsUnit();
    FornitoreSkipsCategory();
    FornitoreSkipsSupplier();
    FornitoreSkipsYield();
    FornitoreSkipsComponents();
  }

  /* ---- "Name" and "Supplier Name" collide on name; the later value stays ---- */

  lemma SupplierNameNormal()
    ensures NormalizeKey("Supplier Name") == "supplier name"
  {
    assert ToLower("Supplier Name") == "supplier name";
    TrimUnpadded("supplier name");
  }

  lemma SupplierNameHitsName()
    ensures Includes("supplier name", NameField)
  {
    assert "supplier name"[9..13] == NameField;
    OccursInside("supplier name", NameField, 9);
  }

  lemma SupplierNameHeader()
    ensures GuessField("Supplier Name") == NameField
  {
    SupplierNameNormal();
    SupplierNameHitsName();
  }

  lemma PlainNameHeader()
    ensures GuessField("Name") == NameField
  {
    assert ToLower("Name") == "name";
    TrimUnpadded("name");
    NameHitsName();
  }

  const CollidingRow: seq<(string, Cell)> := [("Name", Text("Farina")), ("Supplier Name", Text("Molino"))]

  lemma CollisionFirstEntry()
    ensures Renamed(GuessField, CollidingRow[..1]) == map[NameField := Text("Farina")]
  {
    PlainNameHeader();
    assert CollidingRow[..1][..0] == [];
  }

  lemma CollisionExample()
    ensures Renamed(GuessField, CollidingRow) == map[NameField := Text("Molino")]
  {
    CollisionFirstEntry();
    SupplierNameHeader();
  }

  lemma CollisionValidates()
    ensures ValidateRow(Renamed(GuessField, CollidingRow)) == None
  {
    CollisionExample();
  }

  /* ---- validateRow follows JavaScript truthiness ---- */

  lemma ValidateRowExamples()
    ensures ValidateRow(map[]) == Some(MissingName)
    ensures ValidateRow(map[NameField := Text("")]) == Some(MissingName)
    ensures ValidateRow(map[NameField := Number(0.0)]) == Some(MissingName)
    ensures ValidateRow(map[NameField := Undefined]) == Some(MissingName)
    ensures ValidateRow(map[NameField := Text("Farina")]) == None
    ensures ValidateRow(map[NameField := Number(7.0)]) == None
  {
  }
}
