/**
 * Header normalisation of the bulk importer (components/Importer.tsx):
 * `guessField` maps a raw column name to a catalog field, the CSV branch
 * renames every key of a parsed row through it, and `validateRow` refuses
 * a row without a name.
 */
module Importer {
  import opened Options

  /* ---------------- the string primitives guessField uses ---------------- */

  /** The characters `String.prototype.trim` removes: white space and line terminators. */
  predicate IsTrimmable(c: char)
  {
    var n := c as int;
    n == 0x09 || n == 0x0A || n == 0x0B || n == 0x0C || n == 0x0D || n == 0x20 || n == 0xA0
    || n == 0x1680 || (0x2000 <= n <= 0x200A) || n == 0x2028 || n == 0x2029 || n == 0x202F
    || n == 0x205F || n == 0x3000 || n == 0xFEFF
  }

  predicate AllTrimmable(s: string)
  {
    forall j :: 0 <= j < |s| ==> IsTrimmable(s[j])
  }

  /** Lower-casing of one character, on the ASCII letters. */
  function LowerChar(c: char): char
  {
    if 'A' <= c <= 'Z' then (c as int + 32) as char else c
  }

  /** `String.prototype.toLowerCase`, on the ASCII letters. */
  function ToLower(s: string): (r: string)
    ensures |r| == |s|
    ensures forall i :: 0 <= i < |s| ==> r[i] == LowerChar(s[i])
  {
    seq(|s|, i requires 0 <= i < |s| => LowerChar(s[i]))
  }

  /** Number of trimmable characters at the start of `s`. */
  function LeadingSpace(s: string): (n: nat)
    ensures n <= |s| && AllTrimmable(s[..n])
    ensures n < |s| ==> !IsTrimmable(s[n])
  {
    if s != [] && IsTrimmable(s[0]) then
      var n := 1 + LeadingSpace(s[1..]);
      assert s[..n] == [s[0]] + s[1..][..n - 1];
      n
    else 0
  }

  /** Number of trimmable characters at the end of `s`. */
  function TrailingSpace(s: string): (n: nat)
    ensures n <= |s| && AllTrimmable(s[|s| - n..])
    ensures n < |s| ==> !IsTrimmable(s[|s| - 1 - n])
  {
    if s != [] && IsTrimmable(s[|s| - 1]) then
      var rest := s[..|s| - 1];
      var m := TrailingSpace(rest);
      var tail := s[|s| - (m + 1)..];
      assert AllTrimmable(tail) by {
        forall j | 0 <= j < |tail| ensures IsTrimmable(tail[j]) {
          if j < m {
            assert tail[j] == rest[|rest| - m..][j];
          }
        }
      }
      assert m + 1 < |s| ==> s[|s| - 1 - (m + 1)] == rest[|rest| - 1 - m];
      m + 1
    else 0
  }

  /**
   * `String.prototype.trim`: `s` is the result with trimmable padding on
   * both sides, and the result neither starts nor ends with such a character.
   */
  function Trim(s: string): (r: string)
    ensures exists i :: 0 <= i <= |s| - |r| && s[i..i + |r|] == r && AllTrimmable(s[..i]) && AllTrimmable(s[i + |r|..])
    ensures r != [] ==> !IsTrimmable(r[0]) && !IsTrimmable(r[|r| - 1])
  {
    var a := LeadingSpace(s);
    var rest := s[a..];
    var b := TrailingSpace(rest);
    var r := rest[..|rest| - b];
    assert s[a..a + |r|] == r;
    assert s[a + |r|..] == rest[|rest| - b..];
    r
  }

  /** `pattern` occurs in `s` starting at position `i`. */
  ghost predicate OccursAt(s: string, pattern: string, i: int)
  {
    0 <= i && i + |pattern| <= |s| && s[i..i + |pattern|] == pattern
  }

  /** `String.prototype.includes`. */
  function Includes(s: string, pattern: string): bool
    decreases |s|
  {
    if |s| < |pattern| then false
    else if s[..|pattern|] == pattern then true
    else Includes(s[1..], pattern)
  }

  /** Includes holds exactly when the pattern occurs somewhere in `s`. */
  lemma {:induction false} IncludesOccurs(s: string, pattern: string)
    ensures Includes(s, pattern) <==> exists i :: OccursAt(s, pattern, i)
    decreases |s|
  {
    if |s| < |pattern| {
    } else if s[..|pattern|] == pattern {
      assert OccursAt(s, pattern, 0);
    } else {
      IncludesOccurs(s[1..], pattern);
      forall i | OccursAt(s, pattern, i) ensures i >= 1 && OccursAt(s[1..], pattern, i - 1) {
        assert s[1..][i - 1..i - 1 + |pattern|] == s[i..i + |pattern|];
      }
      forall i | OccursAt(s[1..], pattern, i) ensures OccursAt(s, pattern, i + 1) {
        assert s[1..][i..i + |pattern|] == s[i + 1..i + 1 + |pattern|];
      }
    }
  }

  /** A pattern holding a character that `s` lacks does not occur in `s`. */
  lemma MissingCharExcludes(s: string, pattern: string, c: char)
    requires c in pattern && c !in s
    ensures !Includes(s, pattern)
  {
    IncludesOccurs(s, pattern);
  }

  /** A pattern found at some position is included. */
  lemma OccursInside(s: string, pattern: string, i: int)
    requires OccursAt(s, pattern, i)
    ensures Includes(s, pattern)
  {
    IncludesOccurs(s, pattern);
  }

  lemma OccursAtStart(s: string, pattern: string)
    requires |pattern| <= |s| && s[..|pattern|] == pattern
    ensures Includes(s, pattern)
  {
  }

  /* ---------------- guessField ---------------- */

  /** The substrings tried, in order, and the field each one selects. */
  const NameField: string := "name"
  const PricePerUnitField: string := "pricePerUnit"
  const UnitField: string := "unit"
  const CategoryField: string := "category"
  const SupplierIdField: string := "supplierId"
  const YieldWeightField: string := "yieldWeight"
  const ComponentsField: string := "components"

  const PricePattern: string := "price"
  const SupplierPattern: string := "supplier"
  const YieldPattern: string := "yield"

  const RulePatterns: seq<string> :=
    [NameField, PricePattern, UnitField, CategoryField, SupplierPattern, YieldPattern, ComponentsField]
  const RuleFields: seq<string> :=
    [NameField, PricePerUnitField, UnitField, CategoryField, SupplierIdField, YieldWeightField, ComponentsField]

  /** What the rules look at: the key lower-cased, then trimmed. */
  function NormalizeKey(k: string): string
  {
    Trim(ToLower(k))
  }

  /** Rule `i` is the first rule whose pattern occurs in `key`. */
  ghost predicate FirstRule(key: string, i: int)
  {
    0 <= i < |RulePatterns| && Includes(key, RulePatterns[i])
    && forall j :: 0 <= j < i ==> !Includes(key, RulePatterns[j])
  }

  /**
   * The catalog field a raw column name stands for: the field of the first
   * rule whose pattern occurs in the normalised key, or the key itself,
   * untouched, when no rule applies.
   */
  function GuessField(k: string): string
  {
    var key := NormalizeKey(k);
    if Includes(key, NameField) then NameField
    else if Includes(key, PricePattern) then PricePerUnitField
    else if Includes(key, UnitField) then UnitField
    else if Includes(key, CategoryField) then CategoryField
    else if Includes(key, SupplierPattern) then SupplierIdField
    else if Includes(key, YieldPattern) then YieldWeightField
    else if Includes(key, ComponentsField) then ComponentsField
    else k
  }

  /**
   * The rule table read from rule `i` on: the field of the first rule at or
   * after `i` whose pattern occurs in `key`, or `k` when none does.
   */
  function ClassifyFrom(key: string, k: string, i: nat): string
    decreases |RulePatterns| - i
  {
    if i >= |RulePatterns| then k
    else if Includes(key, RulePatterns[i]) then RuleFields[i]
    else ClassifyFrom(key, k, i + 1)
  }

  /** The rule table written out as a chain of tests on `key`. */
  lemma TableChain(key: string, k: string)
    ensures ClassifyFrom(key, k, 0) ==
      if Includes(key, NameField) then NameField
      else if Includes(key, PricePattern) then PricePerUnitField
      else if Includes(key, UnitField) then UnitField
      else if Includes(key, CategoryField) then CategoryField
      else if Includes(key, SupplierPattern) then SupplierIdField
      else if Includes(key, YieldPattern) then YieldWeightField
      else if Includes(key, ComponentsField) then ComponentsField
      else k
  {
    assert ClassifyFrom(key, k, 7) == k;
    assert ClassifyFrom(key, k, 6) == if Includes(key, ComponentsField) then ComponentsField else k;
    assert ClassifyFrom(key, k, 5) == if Includes(key, YieldPattern) then YieldWeightField else ClassifyFrom(key, k, 6);
    assert ClassifyFrom(key, k, 4) == if Includes(key, SupplierPattern) then SupplierIdField else ClassifyFrom(key, k, 5);
    assert ClassifyFrom(key, k, 3) == if Includes(key, CategoryField) then CategoryField else ClassifyFrom(key, k, 4);
    assert ClassifyFrom(key, k, 2) == if Includes(key, UnitField) then UnitField else ClassifyFrom(key, k, 3);
    assert ClassifyFrom(key, k, 1) == if Includes(key, PricePattern) then PricePerUnitField else ClassifyFrom(key, k, 2);
  }

  /** GuessField's chain of tests is the rule table read from the first rule. */
  lemma GuessFieldIsTable(k: string)
    ensures GuessField(k) == ClassifyFrom(NormalizeKey(k), k, 0)
  {
    TableChain(NormalizeKey(k), k);
  }

  /** Reading the table from `from`, the first rule that applies decides. */
  lemma {:induction false} ClassifyFirstRule(key: string, k: string, from: nat, i: int)
    requires from <= i && FirstRule(key, i)
    ensures ClassifyFrom(key, k, from) == RuleFields[i]
    decreases i - from
  {
    if from < i {
      ClassifyFirstRule(key, k, from + 1, i);
    }
  }

  /** Reading the table from `from`, a key no later rule applies to is kept. */
  lemma {:induction false} ClassifyNoRule(key: string, k: string, from: nat)
    requires forall i :: from <= i < |RulePatterns| ==> !Includes(key, RulePatterns[i])
    ensures ClassifyFrom(key, k, from) == k
    decreases |RulePatterns| - from
  {
    if from < |RulePatterns| {
      ClassifyNoRule(key, k, from + 1);
    }
  }

  /**
   * The rules are tried in a fixed order and the first one whose pattern
   * occurs in the normalised key decides; a key no rule applies to is kept.
   */
  lemma GuessFieldByRules(k: string)
    ensures forall i :: FirstRule(NormalizeKey(k), i) ==> GuessField(k) == RuleFields[i]
    ensures (forall i :: 0 <= i < |RulePatterns| ==> !Includes(NormalizeKey(k), RulePatterns[i])) ==> GuessField(k) == k
  {
    var key := NormalizeKey(k);
    GuessFieldIsTable(k);
    forall i | FirstRule(key, i) ensures GuessField(k) == RuleFields[i] {
      ClassifyFirstRule(key, k, 0, i);
    }
    if forall i :: 0 <= i < |RulePatterns| ==> !Includes(key, RulePatterns[i]) {
      ClassifyNoRule(key, k, 0);
    }
  }

  /** A string without padding is its own trim. */
  lemma TrimUnpadded(s: string)
    requires s != [] ==> !IsTrimmable(s[0]) && !IsTrimmable(s[|s| - 1])
    ensures Trim(s) == s
  {
    assert LeadingSpace(s) == 0;
    assert s[0..] == s;
    assert TrailingSpace(s) == 0;
  }

  /**
   * GuessField is idempotent: what it returns is either a field, which
   * classifies to itself, or a key no rule applies to, which is kept again.
   */
  lemma GuessFieldIdempotent(k: string)
    ensures GuessField(GuessField(k)) == GuessField(k)
  {
    var key := NormalizeKey(k);
    if Includes(key, NameField) { NameFieldFixed(); }
    else if Includes(key, PricePattern) { PricePerUnitFieldFixed(); }
    else if Includes(key, UnitField) { UnitFieldFixed(); }
    else if Includes(key, CategoryField) { CategoryFieldFixed(); }
    else if Includes(key, SupplierPattern) { SupplierIdFieldFixed(); }
    else if Includes(key, YieldPattern) { YieldWeightFieldFixed(); }
    else if Includes(key, ComponentsField) { ComponentsFieldFixed(); }
  }

  /*
   * One lemma per field: its normalised form, then one lemma per rule
   * tried before the one that selects it (each excluded by a character the
   * pattern has and the field lacks), then the rule that selects it.
   */

  lemma NameFieldFixed()
    ensures GuessField(NameField) == NameField
  {
    NameFieldNormal();
    NameHitsName();
  }

  lemma NameFieldNormal()
    ensures NormalizeKey(NameField) == "name"
  {
    assert ToLower(NameField) == "name";
    TrimUnpadded("name");
  }

  lemma NameHitsName()
    ensures Includes("name", NameField)
  {
    OccursAtStart("name", NameField);
  }

  lemma PricePerUnitFieldFixed()
    ensures GuessField(PricePerUnitField) == PricePerUnitField
  {
    PricePerUnitFieldNormal();
    PricePerUnitSkipsName();
    PricePerUnitHitsPrice();
  }

  lemma PricePerUnitFieldNormal()
    ensures NormalizeKey(PricePerUnitField) == "priceperunit"
  {
    assert ToLower(PricePerUnitField) == "priceperunit";
    TrimUnpadded("priceperunit");
  }

  lemma PricePerUnitSkipsName()
    ensures !Includes("priceperunit", NameField)
  {
    MissingCharExcludes("priceperunit", NameField, 'a');
  }

  lemma PricePerUnitHitsPrice()
    ensures Includes("priceperunit", PricePattern)
  {
    OccursAtStart("priceperunit", PricePattern);
  }

  lemma UnitFieldFixed()
    ensures GuessField(UnitField) == UnitField
  {
    UnitFieldNormal();
    UnitSkipsName();
    UnitSkipsPrice();
    UnitHitsUnit();
  }

  lemma UnitFieldNormal()
    ensures NormalizeKey(UnitField) == "unit"
  {
    assert ToLower(UnitField) == "unit";
    TrimUnpadded("unit");
  }

  lemma UnitSkipsName()
    ensures !Includes("unit", NameField)
  {
    MissingCharExcludes("unit", NameField, 'a');
  }

  lemma UnitSkipsPrice()
    ensures !Includes("unit", PricePattern)
  {
    MissingCharExcludes("unit", PricePattern, 'p');
  }

  lemma UnitHitsUnit()
    ensures Includes("unit", UnitField)
  {
    OccursAtStart("unit", UnitField);
  }

  lemma CategoryFieldFixed()
    ensures GuessField(CategoryField) == CategoryField
  {
    CategoryFieldNormal();
    CategorySkipsName();
    CategorySkipsPrice();
    CategorySkipsUnit();
    CategoryHitsCategory();
  }

  lemma CategoryFieldNormal()
    ensures NormalizeKey(CategoryField) == "category"
  {
    assert ToLower(CategoryField) == "category";
    TrimUnpadded("category");
  }

  lemma CategorySkipsName()
    ensures !Includes("category", NameField)
  {
    MissingCharExcludes("category", NameField, 'n');
  }

  lemma CategorySkipsPrice()
    ensures !Includes("category", PricePattern)
  {
    MissingCharExcludes("category", PricePattern, 'p');
  }

  lemma CategorySkipsUnit()
    ensures !Includes("category", UnitField)
  {
    MissingCharExcludes("category", UnitField, 'u');
  }

  lemma CategoryHitsCategory()
    ensures Includes("category", CategoryField)
  {
    OccursAtStart("category", CategoryField);
  }

  lemma SupplierIdFieldFixed()
    ensures GuessField(SupplierIdField) == SupplierIdField
  {
    SupplierIdFieldNormal();
    SupplierIdSkipsName();
    SupplierIdSkipsPrice();
    SupplierIdSkipsUnit();
    SupplierIdSkipsCategory();
    SupplierIdHitsSupplier();
  }

  lemma SupplierIdFieldNormal()
    ensures NormalizeKey(SupplierIdField) == "supplierid"
  {
    assert ToLower(SupplierIdField) == "supplierid";
    TrimUnpadded("supplierid");
  }

  lemma SupplierIdSkipsName()
    ensures !Includes("supplierid", NameField)
  {
    MissingCharExcludes("supplierid", NameField, 'n');
  }

  lemma SupplierIdSkipsPrice()
    ensures !Includes("supplierid", PricePattern)
  {
    MissingCharExcludes("supplierid", PricePattern, 'c');
  }

  lemma SupplierIdSkipsUnit()
    ensures !Includes("supplierid", UnitField)
  {
    MissingCharExcludes("supplierid", UnitField, 'n');
  }

  lemma SupplierIdSkipsCategory()
    ensures !Includes("supplierid", CategoryField)
  {
    MissingCharExcludes("supplierid", CategoryField, 'c');
  }

  lemma SupplierIdHitsSupplier()
    ensures Includes("supplierid", SupplierPattern)
  {
    OccursAtStart("supplierid", SupplierPattern);
  }

  lemma YieldWeightFieldFixed()
    ensures GuessField(YieldWeightField) == YieldWeightField
  {
    YieldWeightFieldNormal();
    YieldWeightSkipsName();
    YieldWeightSkipsPrice();
    YieldWeightSkipsUnit();
    YieldWeightSkipsCategory();
    YieldWeightSkipsSupplier();
    YieldWeightHitsYield();
  }

  lemma YieldWeightFieldNormal()
    ensures NormalizeKey(YieldWeightField) == "yieldweight"
  {
    assert ToLower(YieldWeightField) == "yieldweight";
    TrimUnpadded("yieldweight");
  }

  lemma YieldWeightSkipsName()
    ensures !Includes("yieldweight", NameField)
  {
    MissingCharExcludes("yieldweight", NameField, 'n');
  }

  lemma YieldWeightSkipsPrice()
    ensures !Includes("yieldweight", PricePattern)
  {
    MissingCharExcludes("yieldweight", PricePattern, 'p');
  }

  lemma YieldWeightSkipsUnit()
    ensures !Includes("yieldweight", UnitField)
  {
    MissingCharExcludes("yieldweight", UnitField, 'u');
  }

  lemma YieldWeightSkipsCategory()
    ensures !Includes("yieldweight", CategoryField)
  {
    MissingCharExcludes("yieldweight", CategoryField, 'c');
  }

  lemma YieldWeightSkipsSupplier()
    ensures !Includes("yieldweight", SupplierPattern)
  {
    MissingCharExcludes("yieldweight", SupplierPattern, 's');
  }

  lemma YieldWeightHitsYield()
    ensures Includes("yieldweight", YieldPattern)
  {
    OccursAtStart("yieldweight", YieldPattern);
  }

  lemma ComponentsFieldFixed()
    ensures GuessField(ComponentsField) == ComponentsField
  {
    ComponentsFieldNormal();
    ComponentsSkipsName();
    ComponentsSkipsPrice();
    ComponentsSkipsUnit();
    ComponentsSkipsCategory();
    ComponentsSkipsSupplier();
    ComponentsSkipsYield();
    ComponentsHitsComponents();
  }

  lemma ComponentsFieldNormal()
    ensures NormalizeKey(ComponentsField) == "components"
  {
    assert ToLower(ComponentsField) == "components";
    TrimUnpadded("components");
  }

  lemma ComponentsSkipsName()
    ensures !Includes("components", NameField)
  {
    MissingCharExcludes("components", NameField, 'a');
  }

  lemma ComponentsSkipsPrice()
    ensures !Includes("components", PricePattern)
  {
    MissingCharExcludes("components", PricePattern, 'r');
  }

  lemma ComponentsSkipsUnit()
    ensures !Includes("components", UnitField)
  {
    MissingCharExcludes("components", UnitField, 'i');
  }

  lemma ComponentsSkipsCategory()
    ensures !Includes("components", CategoryField)
  {
    MissingCharExcludes("components", CategoryField, 'a');
  }

  lemma ComponentsSkipsSupplier()
    ensures !Includes("components", SupplierPattern)
  {
    MissingCharExcludes("components", SupplierPattern, 'l');
  }

  lemma ComponentsSkipsYield()
    ensures !Includes("components", YieldPattern)
  {
    MissingCharExcludes("components", YieldPattern, 'y');
  }

  lemma ComponentsHitsComponents()
    ensures Includes("components", ComponentsField)
  {
    OccursAtStart("components", ComponentsField);
  }

  /* ---------------- the row normaliser ---------------- */

  /** A cell of a parsed row: text, a number, or absent. */
  datatype Cell = Text(text: string) | Number(number: real) | Undefined

  /** A parsed row: column name to cell. */
  type Row = map<string, Cell>

  /** Entry `i` is the last one whose key `guess` sends to the same field. */
  ghost predicate LastForField(guess: string -> string, entries: seq<(string, Cell)>, i: int)
  {
    0 <= i < |entries|
    && forall j :: i < j < |entries| ==> guess(entries[j].0) != guess(entries[i].0)
  }

  /**
   * The row built by storing every entry, in order, under the field `guess`
   * gives its key; a later entry overwrites an earlier one. The importer
   * renames with GuessField.
   */
  function Renamed(guess: string -> string, entries: seq<(string, Cell)>): Row
  {
    if entries == [] then map[]
    else
      var n := |entries| - 1;
      Renamed(guess, entries[..n])[guess(entries[n].0) := entries[n].1]
  }

  /** The keys of the renamed row are exactly the guessed fields of the raw keys. */
  lemma {:induction false} RenamedKeys(guess: string -> string, entries: seq<(string, Cell)>)
    ensures forall f :: f in Renamed(guess, entries) <==> exists i :: 0 <= i < |entries| && guess(entries[i].0) == f
  {
    if entries != [] {
      var n := |entries| - 1;
      var prefix := entries[..n];
      RenamedKeys(guess, prefix);
      forall f | f in Renamed(guess, entries) ensures exists i :: 0 <= i < |entries| && guess(entries[i].0) == f {
        if f != guess(entries[n].0) {
          assert f in Renamed(guess, prefix);
          var i :| 0 <= i < |prefix| && guess(prefix[i].0) == f;
          assert entries[i] == prefix[i];
        }
      }
      forall f | exists i :: 0 <= i < |entries| && guess(entries[i].0) == f ensures f in Renamed(guess, entries) {
        var i :| 0 <= i < |entries| && guess(entries[i].0) == f;
        if i < n {
          assert prefix[i] == entries[i];
        }
      }
    }
  }

  /** When several raw keys fall on one field, the value of the last of them is kept. */
  lemma {:induction false} RenamedLastWins(guess: string -> string, entries: seq<(string, Cell)>, i: int)
    requires LastForField(guess, entries, i)
    ensures guess(entries[i].0) in Renamed(guess, entries)
    ensures Renamed(guess, entries)[guess(entries[i].0)] == entries[i].1
  {
    var n := |entries| - 1;
    if i < n {
      var prefix := entries[..n];
      assert prefix[i] == entries[i];
      assert LastForField(guess, prefix, i) by {
        forall j | i < j < |prefix| ensures guess(prefix[j].0) != guess(prefix[i].0) {
          assert prefix[j] == entries[j];
        }
      }
      RenamedLastWins(guess, prefix, i);
    }
  }

  /** The position of the last entry sent to `f`, for a field some entry is sent to. */
  lemma LastIndexFor(guess: string -> string, entries: seq<(string, Cell)>, f: string) returns (i: int)
    requires exists j :: 0 <= j < |entries| && guess(entries[j].0) == f
    ensures LastForField(guess, entries, i) && guess(entries[i].0) == f
    decreases |entries|
  {
    var n := |entries| - 1;
    if guess(entries[n].0) == f {
      i := n;
    } else {
      var prefix := entries[..n];
      var j :| 0 <= j < |entries| && guess(entries[j].0) == f;
      assert prefix[j] == entries[j];
      i := LastIndexFor(guess, prefix, f);
      assert prefix[i] == entries[i];
      forall m | i < m < |entries| ensures guess(entries[m].0) != guess(entries[i].0) {
        if m < n {
          assert prefix[m] == entries[m];
        }
      }
    }
  }

  /** Every key of a row renamed by GuessField already is its own guessed field. */
  lemma RenamedKeysStable(entries: seq<(string, Cell)>)
    ensures forall f :: f in Renamed(GuessField, entries) ==> GuessField(f) == f
  {
    RenamedKeys(GuessField, entries);
    forall f | f in Renamed(GuessField, entries) ensures GuessField(f) == f {
      var i :| 0 <= i < |entries| && GuessField(entries[i].0) == f;
      GuessFieldIdempotent(entries[i].0);
    }
  }

  /**
   * The CSV branch's per-row loop: start from an empty row and, for each
   * raw key in enumeration order, store its value under the guessed field.
   */
  method NormalizeRow(entries: seq<(string, Cell)>) returns (out: Row)
    ensures out == Renamed(GuessField, entries)
  {
    out := map[];
    var i := 0;
    while i < |entries|
      invariant 0 <= i <= |entries|
      invariant out == Renamed(GuessField, entries[..i])
    {
      assert entries[..i + 1][..i] == entries[..i];
      var field := GuessField(entries[i].0);
      out := out[field := entries[i].1];
      i := i + 1;
    }
    assert entries[..i] == entries;
  }

  /* ---------------- validateRow ---------------- */

  const MissingName: string := "Manca il campo name"

  /** JavaScript truthiness of a cell: non-empty text, a non-zero number. */
  predicate Truthy(c: Cell)
  {
    match c
    case Text(s) => s != ""
    case Number(x) => x != 0.0
    case Undefined => false
  }

  /** The error for a row whose `name` is missing or falsy, and none otherwise. */
  function ValidateRow(row: Row): (r: Option<string>)
    ensures r.Some? <==> NameField !in row || !Truthy(row[NameField])
    ensures r.Some? ==> r.value == MissingName
  {
    if NameField !in row || !Truthy(row[NameField]) then Some(MissingName) else None
  }

  /**
   * A renamed row passes validation exactly when the last raw column that is
   * guessed to be `name` holds a truthy value.
   */
  lemma ValidateRenamed(guess: string -> string, entries: seq<(string, Cell)>)
    ensures ValidateRow(Renamed(guess, entries)).None?
      <==> exists i :: LastForField(guess, entries, i) && guess(entries[i].0) == NameField && Truthy(entries[i].1)
  {
    RenamedKeys(guess, entries);
    if ValidateRow(Renamed(guess, entries)).None? {
      var i := LastIndexFor(guess, entries, NameField);
      RenamedLastWins(guess, entries, i);
    } else {
      forall i | LastForField(guess, entries, i) && guess(entries[i].0) == NameField
        ensures !Truthy(entries[i].1)
      {
        RenamedLastWins(guess, entries, i);
      }
    }
  }
}
