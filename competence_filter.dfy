/** `CompetenceFilterFactory`: compiles a `CitygovPersonCompetence` input into
    range conditions on the `CompetenceRange` table and selects the persons
    whose stored range contains the searched value. The SQLite connection is
    the lazily set `database` field; the text of the SQL statement and the
    quoting of its literals are not modelled, the conditions are kept as
    values and the `WHERE` clause is the predicate `SatisfiesAll` over the
    table's rows. */
module CompetenceFilter {
  import opened Wrappers
  import opened Strings
  import opened CompetenceInput

  const TABLE_NAME := "CompetenceRange"
  const COLUMN_TYPE_PREFIX := "prefix"
  const COLUMN_TYPE_TIN := "tin"
  const COLUMN_TYPE_FILE := "file"
  const COLUMN_TYPE_LICENSE_PLATE := "licensePlate"

  // ---------------------------------------------------------------------------
  // Paths
  // ---------------------------------------------------------------------------

  /** The constructor's path normalisation: a `'/'` is appended unless the
      path already ends with one. */
  function WithTrailingSlash(p: string): (r: string)
    ensures |r| > 0 && r[|r| - 1] == '/'
    ensures r == p || r == p + "/"
    ensures r == p <==> |p| > 0 && p[|p| - 1] == '/'
  {
    if |p| > 0 && p[|p| - 1] == '/' then p else p + "/"
  }

  /** Normalising a normalised path changes nothing. */
  lemma WithTrailingSlashIdempotent(p: string)
    ensures WithTrailingSlash(WithTrailingSlash(p)) == WithTrailingSlash(p)
  {
  }

  // ---------------------------------------------------------------------------
  // Normalisation of search values
  // ---------------------------------------------------------------------------

  /** An alphanumeric character is kept, anything else becomes a space. */
  function AlnumOrSpace(c: char): char {
    if IsAsciiAlnum(c) then c else ' '
  }

  /** `AlnumOrSpace` on every character, built from the left as the source's
      loop builds it. */
  function AlnumOrSpaces(t: string): (r: string)
    ensures |r| == |t|
    ensures forall i :: 0 <= i < |t| ==> r[i] == AlnumOrSpace(t[i])
  {
    if t == [] then [] else AlnumOrSpaces(t[..|t| - 1]) + [AlnumOrSpace(t[|t| - 1])]
  }

  /** `normaliseToAlpanumericString`: trimmed, upper-cased, and each
      character that is not a letter or a digit replaced by one space. The
      result is as long as the trimmed input and holds only upper-case
      letters, digits and spaces. */
  function Normalised(s: string): (r: string)
    ensures |r| == |Trim(s)|
    ensures forall i :: 0 <= i < |r| ==> IsAsciiUpper(r[i]) || IsAsciiDigit(r[i]) || r[i] == ' '
    ensures forall i :: 0 <= i < |r| ==>
      r[i] == (if IsAsciiAlnum(Trim(s)[i]) then UpperChar(Trim(s)[i]) else ' ')
  {
    AlnumOrSpaces(ToUpper(Trim(s)))
  }

  /** Upper-casing a normalised value changes nothing. */
  lemma NormalisedIsUpper(s: string)
    ensures ToUpper(Normalised(s)) == Normalised(s)
  {
    var n := Normalised(s);
    assert forall i :: 0 <= i < |n| ==> ToUpper(n)[i] == n[i];
  }

  // ---------------------------------------------------------------------------
  // Text order
  // ---------------------------------------------------------------------------

  /** SQLite's `<=` on two text values under the BINARY collation: by
      character code, a proper prefix before the longer value. */
  predicate TextLessEq(a: string, b: string) {
    a == [] || (b != [] && (a[0] < b[0] || (a[0] == b[0] && TextLessEq(a[1..], b[1..]))))
  }

  lemma {:induction false} TextLessEqReflexive(a: string)
    ensures TextLessEq(a, a)
  {
    if a != [] {
      TextLessEqReflexive(a[1..]);
    }
  }

  lemma {:induction false} TextLessEqTotal(a: string, b: string)
    ensures TextLessEq(a, b) || TextLessEq(b, a)
  {
    if a != [] && b != [] && a[0] == b[0] {
      TextLessEqTotal(a[1..], b[1..]);
    }
  }

  lemma {:induction false} TextLessEqAntisymmetric(a: string, b: string)
    requires TextLessEq(a, b) && TextLessEq(b, a)
    ensures a == b
  {
    if a != [] && b != [] {
      TextLessEqAntisymmetric(a[1..], b[1..]);
      assert a == [a[0]] + a[1..] && b == [b[0]] + b[1..];
    }
  }

  lemma {:induction false} TextLessEqTransitive(a: string, b: string, c: string)
    requires TextLessEq(a, b) && TextLessEq(b, c)
    ensures TextLessEq(a, c)
  {
    if a != [] && b != [] && c != [] && a[0] == b[0] && b[0] == c[0] {
      TextLessEqTransitive(a[1..], b[1..], c[1..]);
    }
  }

  // ---------------------------------------------------------------------------
  // Conditions and rows
  // ---------------------------------------------------------------------------

  /** `(type = kind AND rangeFrom <= from AND rangeTo >= to)`. */
  datatype Condition = Condition(kind: string, from: string, to: string)

  /** A row of the `CompetenceRange` table. */
  datatype Row = Row(person: int, product: int, group: int, kind: string, rangeFrom: string, rangeTo: string)

  /** `getConditionRangeBy`: both bounds normalised, the upper one defaulting
      to the lower; the second upper-casing changes nothing. */
  function RangeCondition(kind: string, from: string, to: Option<string>): (c: Condition)
    ensures c.kind == kind
    ensures c.from == Normalised(from)
    ensures c.to == Normalised(to.GetOr(from))
    ensures to.None? ==> c.from == c.to
  {
    NormalisedIsUpper(from);
    NormalisedIsUpper(to.GetOr(from));
    Condition(kind, ToUpper(Normalised(from)), ToUpper(Normalised(to.GetOr(from))))
  }

  /** A row satisfies a condition when it has the condition's kind and its
      stored range contains the searched range. */
  predicate Satisfies(r: Row, c: Condition) {
    r.kind == c.kind && TextLessEq(r.rangeFrom, c.from) && TextLessEq(c.to, r.rangeTo)
  }

  /** The `WHERE` clause: every condition, joined by `AND`, on one row. */
  predicate SatisfiesAll(r: Row, cs: seq<Condition>) {
    forall i :: 0 <= i < |cs| ==> Satisfies(r, cs[i])
  }

  /** `SELECT DISTINCT person … WHERE …`: the persons of the satisfying rows,
      each once, in the order of their first satisfying row. */
  function SelectDistinctPersons(rows: seq<Row>, cs: seq<Condition>): (ps: seq<int>)
    ensures forall i, j :: 0 <= i < j < |ps| ==> ps[i] != ps[j]
    ensures forall p :: p in ps <==> exists i :: 0 <= i < |rows| && SatisfiesAll(rows[i], cs) && rows[i].person == p
  {
    if rows == [] then []
    else
      var init := rows[..|rows| - 1];
      var ps := SelectDistinctPersons(init, cs);
      var r := rows[|rows| - 1];
      assert forall i :: 0 <= i < |init| ==> init[i] == rows[i];
      if SatisfiesAll(r, cs) && r.person !in ps then ps + [r.person] else ps
  }

  // ---------------------------------------------------------------------------
  // Licence plates
  // ---------------------------------------------------------------------------

  /** `str_repeat($c, $n)`. */
  function Repeat(c: char, n: nat): (r: string)
    ensures |r| == n
    ensures forall i :: 0 <= i < n ==> r[i] == c
  {
    if n == 0 then [] else [c] + Repeat(c, n - 1)
  }

  /** A set component brought to `width`: cut off after `width` characters,
      or padded with `pad` on the right (or, for the number, on the left). */
  function Fit(v: string, width: nat, pad: char, padLeft: bool): (r: string)
    ensures |r| == width
    ensures |v| >= width ==> r == v[..width]
    ensures |v| < width && !padLeft ==> r == v + Repeat(pad, width - |v|)
    ensures |v| < width && padLeft ==> r == Repeat(pad, width - |v|) + v
  {
    if |v| > width then v[..width]
    else if |v| < width then (if padLeft then Repeat(pad, width - |v|) + v else v + Repeat(pad, width - |v|))
    else v
  }

  /** One component of a bound: fitted when set, the default otherwise. */
  function Component(v: Option<string>, width: nat, default: string, pad: char, padLeft: bool): (r: string)
    requires |default| == width
    ensures |r| == width
    ensures IsSet(v) ==> r == Fit(v.value, width, pad, padLeft)
    ensures !IsSet(v) ==> r == default
  {
    if IsSet(v) then Fit(v.value, width, pad, padLeft) else default
  }

  /** `$searchFrom`: region and letter padded with `A`, number with leading
      zeros; an unset component spans from `AAA`, `AA` and `0000`. */
  function PlateFrom(region: Option<string>, letter: Option<string>, number: Option<string>): (r: string)
    ensures |r| == 11
  {
    Component(region, 3, "AAA", 'A', false) + " " + Component(letter, 2, "AA", 'A', false) + " " +
    Component(number, 4, "0000", '0', true)
  }

  /** `$searchTo`: region and letter padded with `Z`, number with leading
      zeros; an unset component spans to `ZZZ`, `ZZ` and `9999`. */
  function PlateTo(region: Option<string>, letter: Option<string>, number: Option<string>): (r: string)
    ensures |r| == 11
  {
    Component(region, 3, "ZZZ", 'Z', false) + " " + Component(letter, 2, "ZZ", 'Z', false) + " " +
    Component(number, 4, "9999", '0', true)
  }

  /** Three parts joined by single spaces keep their places. */
  lemma JoinedPlaces(a: string, b: string, c: string)
    requires |a| == 3 && |b| == 2 && |c| == 4
    ensures var s := a + " " + b + " " + c;
      |s| == 11 && s[3] == ' ' && s[6] == ' ' && s[..3] == a && s[4..6] == b && s[7..] == c
  {
    var s := a + " " + b + " " + c;
    assert s[..3] == a;
    assert s[4..6] == b;
    assert s[7..] == c;
  }

  /** The lower bound is three, two and four characters separated by single
      spaces; each set component occupies its place, fitted, and each unset
      one the start of its span. */
  lemma PlateFromBounds(region: Option<string>, letter: Option<string>, number: Option<string>)
    ensures var f := PlateFrom(region, letter, number);
      |f| == 11 && f[3] == ' ' && f[6] == ' ' &&
      f[..3] == Component(region, 3, "AAA", 'A', false) &&
      f[4..6] == Component(letter, 2, "AA", 'A', false) &&
      f[7..] == Component(number, 4, "0000", '0', true)
  {
    JoinedPlaces(Component(region, 3, "AAA", 'A', false), Component(letter, 2, "AA", 'A', false),
                 Component(number, 4, "0000", '0', true));
  }

  /** The upper bound likewise, with each unset component at the end of
      its span. */
  lemma PlateToBounds(region: Option<string>, letter: Option<string>, number: Option<string>)
    ensures var t := PlateTo(region, letter, number);
      |t| == 11 && t[3] == ' ' && t[6] == ' ' &&
      t[..3] == Component(region, 3, "ZZZ", 'Z', false) &&
      t[4..6] == Component(letter, 2, "ZZ", 'Z', false) &&
      t[7..] == Component(number, 4, "9999", '0', true)
  {
    JoinedPlaces(Component(region, 3, "ZZZ", 'Z', false), Component(letter, 2, "ZZ", 'Z', false),
                 Component(number, 4, "9999", '0', true));
  }

  /** Components that fill their width make both bounds the same plate, so
      the row's range must contain that one plate. */
  lemma FullPlateIsOnePoint(region: string, letter: string, number: string)
    requires !IsEmpty(region) && !IsEmpty(letter) && !IsEmpty(number)
    requires |region| >= 3 && |letter| >= 2 && |number| >= 4
    ensures PlateFrom(Some(region), Some(letter), Some(number)) == PlateTo(Some(region), Some(letter), Some(number))
  {
  }

  /** `getConditionByLicensePlate`: a licence-plate condition from the
      normalised lower bound to the normalised upper bound. */
  function LicensePlateCondition(region: Option<string>, letter: Option<string>, number: Option<string>): (c: Condition)
    ensures c.kind == COLUMN_TYPE_LICENSE_PLATE
    ensures c.from == Normalised(PlateFrom(region, letter, number))
    ensures c.to == Normalised(PlateTo(region, letter, number))
  {
    RangeCondition(COLUMN_TYPE_LICENSE_PLATE, PlateFrom(region, letter, number), Some(PlateTo(region, letter, number)))
  }

  // ---------------------------------------------------------------------------
  // The filter
  // ---------------------------------------------------------------------------

  /** `getPersonSqlFilter`: nothing without a filter; otherwise one
      condition for each of prefix, tin and file that is not null, and one
      licence-plate condition when any of its parts is not null, in that
      order. */
  function SqlConditions(c: CitygovPersonCompetence): (cs: seq<Condition>)
    ensures |cs| <= 4
  {
    if !HasFilter(c) then []
    else
      ScalarCondition(COLUMN_TYPE_PREFIX, c.prefix) + ScalarCondition(COLUMN_TYPE_TIN, c.tin) +
      ScalarCondition(COLUMN_TYPE_FILE, c.file) + PlateCondition(c)
  }

  /** The condition on a scalar field, when it is not null: its value as
      both bounds. */
  function ScalarCondition(kind: string, v: Option<string>): (cs: seq<Condition>)
    ensures |cs| <= 1 && (cs != [] <==> v.Some?)
    ensures cs != [] ==> cs[0].kind == kind
  {
    if v.Some? then [RangeCondition(kind, v.value, None)] else []
  }

  /** The licence-plate condition, when any of its parts is not null. */
  function PlateCondition(c: CitygovPersonCompetence): (cs: seq<Condition>)
    ensures |cs| <= 1
    ensures cs != [] <==> c.licensePlateRegion.Some? || c.licensePlateNumber.Some? || c.licensePlateLetter.Some?
    ensures cs != [] ==> cs[0].kind == COLUMN_TYPE_LICENSE_PLATE
  {
    if c.licensePlateRegion.Some? || c.licensePlateNumber.Some? || c.licensePlateLetter.Some?
    then [LicensePlateCondition(c.licensePlateRegion, c.licensePlateLetter, c.licensePlateNumber)] else []
  }

  /** The position of a condition kind in the emission order. */
  function KindRank(kind: string): nat {
    if kind == COLUMN_TYPE_PREFIX then 0
    else if kind == COLUMN_TYPE_TIN then 1
    else if kind == COLUMN_TYPE_FILE then 2
    else 3
  }

  /** There are conditions exactly when the input has a filter. */
  lemma SqlConditionsEmptyIff(c: CitygovPersonCompetence)
    ensures SqlConditions(c) == [] <==> !HasFilter(c)
  {
  }

  /** Four optional parts of the given kinds, joined, rise in rank. */
  lemma RanksRise(p: seq<Condition>, t: seq<Condition>, f: seq<Condition>, l: seq<Condition>)
    requires |p| <= 1 && |t| <= 1 && |f| <= 1 && |l| <= 1
    requires p != [] ==> p[0].kind == COLUMN_TYPE_PREFIX
    requires t != [] ==> t[0].kind == COLUMN_TYPE_TIN
    requires f != [] ==> f[0].kind == COLUMN_TYPE_FILE
    requires l != [] ==> l[0].kind == COLUMN_TYPE_LICENSE_PLATE
    ensures var cs := p + t + f + l;
      forall i, j :: 0 <= i < j < |cs| ==> KindRank(cs[i].kind) < KindRank(cs[j].kind)
  {
    var cs := p + t + f + l;
    forall i | 0 <= i < |cs|
      ensures KindRank(cs[i].kind) ==
        if i < |p| then 0 else if i < |p| + |t| then 1 else if i < |p| + |t| + |f| then 2 else 3
    {
      if i < |p| {
        assert cs[i] == p[0];
      } else if i < |p| + |t| {
        assert cs[i] == t[0];
      } else if i < |p| + |t| + |f| {
        assert cs[i] == f[0];
      } else {
        assert cs[i] == l[0];
      }
    }
  }

  /** The conditions come in the order prefix, tin, file, licence plate,
      each kind at most once. */
  lemma SqlConditionsOrdered(c: CitygovPersonCompetence)
    ensures var cs := SqlConditions(c);
      forall i, j :: 0 <= i < j < |cs| ==> KindRank(cs[i].kind) < KindRank(cs[j].kind)
  {
    if HasFilter(c) {
      RanksRise(ScalarCondition(COLUMN_TYPE_PREFIX, c.prefix), ScalarCondition(COLUMN_TYPE_TIN, c.tin),
                ScalarCondition(COLUMN_TYPE_FILE, c.file), PlateCondition(c));
    }
  }

  /** A row has one kind, so conditions on two kinds select nobody. */
  lemma {:induction false} TwoKindsNoRow(rows: seq<Row>, cs: seq<Condition>)
    requires |cs| >= 2 && cs[0].kind != cs[1].kind
    ensures SelectDistinctPersons(rows, cs) == []
  {
    if rows != [] {
      var last := rows[|rows| - 1];
      TwoKindsNoRow(rows[..|rows| - 1], cs);
      assert !Satisfies(last, cs[0]) || !Satisfies(last, cs[1]);
    }
  }

  /** Every condition pins a different kind, so an input with two or more
      kinds set selects nobody. */
  lemma TwoKindsSelectNobody(c: CitygovPersonCompetence, rows: seq<Row>)
    requires |SqlConditions(c)| >= 2
    ensures SelectDistinctPersons(rows, SqlConditions(c)) == []
  {
    var cs := SqlConditions(c);
    SqlConditionsOrdered(c);
    assert KindRank(cs[0].kind) < KindRank(cs[1].kind);
    TwoKindsNoRow(rows, cs);
  }

  /** `getfilteredPersonIdList` once the statement has been run: `null`
      without conditions or when the statement could not be prepared or
      executed (`rows` is `None`), otherwise the selected persons. */
  function FilteredPersons(c: CitygovPersonCompetence, rows: Option<seq<Row>>): (ids: Option<seq<int>>)
    ensures ids.None? <==> !HasFilter(c) || rows.None?
    ensures ids.Some? ==> ids.value == SelectDistinctPersons(rows.value, SqlConditions(c))
  {
    SqlConditionsEmptyIff(c);
    var cs := SqlConditions(c);
    if cs == [] then None
    else if rows.None? then None
    else Some(SelectDistinctPersons(rows.value, cs))
  }

  // ---------------------------------------------------------------------------
  // The sample table
  // ---------------------------------------------------------------------------

  /** One person with a range of each kind. */
  const SAMPLE_ROWS := [
    Row(1001, 2001, 5, "prefix", "A", "H"),
    Row(1001, 2001, 5, "tin", "ST20", "ST90"),
    Row(1001, 2001, 5, "file", "F G", "F K"),
    Row(1001, 2001, 5, "licensePlate", "MSA BB 0010", "MZZ HH, 0050")]

  /** Two strings of the same length that agree at every index are equal. */
  lemma SameChars(a: string, b: string)
    requires |a| == |b|
    requires forall i :: 0 <= i < |a| ==> a[i] == b[i]
    ensures a == b
  {
  }

  /** A condition no row satisfies selects nobody. */
  lemma {:induction false} SelectNobody(rows: seq<Row>, c: Condition)
    requires forall i :: 0 <= i < |rows| ==> !Satisfies(rows[i], c)
    ensures SelectDistinctPersons(rows, [c]) == []
  {
    if rows != [] {
      SelectNobody(rows[..|rows| - 1], c);
      assert [c][0] == c;
      assert !SatisfiesAll(rows[|rows| - 1], [c]);
    }
  }

  /** A condition exactly one row satisfies selects that row's person. */
  lemma {:induction false} SelectOneRow(rows: seq<Row>, c: Condition, k: nat)
    requires k < |rows|
    requires forall i :: 0 <= i < |rows| ==> (Satisfies(rows[i], c) <==> i == k)
    ensures SelectDistinctPersons(rows, [c]) == [rows[k].person]
  {
    var init := rows[..|rows| - 1];
    var last := rows[|rows| - 1];
    if k == |rows| - 1 {
      SelectNobody(init, c);
      assert SatisfiesAll(last, [c]);
    } else {
      SelectOneRow(init, c, k);
      assert [c][0] == c;
      assert !SatisfiesAll(last, [c]);
    }
  }

  /** An input with only its prefix set has the prefix condition alone. */
  lemma OnlyPrefix(v: string)
    requires !IsEmpty(v)
    ensures SqlConditions(DEFAULT.(prefix := Some(v))) == [RangeCondition(COLUMN_TYPE_PREFIX, v, None)]
  {
    var c := DEFAULT.(prefix := Some(v));
    assert HasFilter(c);
    assert ScalarCondition(COLUMN_TYPE_TIN, c.tin) == [] && ScalarCondition(COLUMN_TYPE_FILE, c.file) == [];
    assert PlateCondition(c) == [];
    assert ScalarCondition(COLUMN_TYPE_PREFIX, c.prefix) == [RangeCondition(COLUMN_TYPE_PREFIX, v, None)];
  }

  /** An input with only its tin set has the tin condition alone. */
  lemma OnlyTin(v: string)
    requires !IsEmpty(v)
    ensures SqlConditions(DEFAULT.(tin := Some(v))) == [RangeCondition(COLUMN_TYPE_TIN, v, None)]
  {
    var c := DEFAULT.(tin := Some(v));
    assert HasFilter(c);
    assert ScalarCondition(COLUMN_TYPE_PREFIX, c.prefix) == [] && ScalarCondition(COLUMN_TYPE_FILE, c.file) == [];
    assert PlateCondition(c) == [];
    assert ScalarCondition(COLUMN_TYPE_TIN, c.tin) == [RangeCondition(COLUMN_TYPE_TIN, v, None)];
  }

  /** An input with only its file set has the file condition alone. */
  lemma OnlyFile(v: string)
    requires !IsEmpty(v)
    ensures SqlConditions(DEFAULT.(file := Some(v))) == [RangeCondition(COLUMN_TYPE_FILE, v, None)]
  {
    var c := DEFAULT.(file := Some(v));
    assert HasFilter(c);
    assert ScalarCondition(COLUMN_TYPE_PREFIX, c.prefix) == [] && ScalarCondition(COLUMN_TYPE_TIN, c.tin) == [];
    assert PlateCondition(c) == [];
    assert ScalarCondition(COLUMN_TYPE_FILE, c.file) == [RangeCondition(COLUMN_TYPE_FILE, v, None)];
  }

  /** An input with only licence-plate parts set, the region among them,
      has the licence-plate condition alone. */
  lemma OnlyPlate(region: string, letter: Option<string>, number: Option<string>)
    requires !IsEmpty(region)
    ensures SqlConditions(DEFAULT.(licensePlateRegion := Some(region), licensePlateLetter := letter,
                                   licensePlateNumber := number))
      == [LicensePlateCondition(Some(region), letter, number)]
  {
    var c := DEFAULT.(licensePlateRegion := Some(region), licensePlateLetter := letter, licensePlateNumber := number);
    assert HasFilter(c);
    assert ScalarCondition(COLUMN_TYPE_PREFIX, c.prefix) == [] && ScalarCondition(COLUMN_TYPE_TIN, c.tin) == [];
    assert ScalarCondition(COLUMN_TYPE_FILE, c.file) == [];
    assert PlateCondition(c) == [LicensePlateCondition(Some(region), letter, number)];
  }

  /** From index `k` on, `s` holds only letters, digits and spaces, and
      `e` is `s` upper-cased. */
  predicate PlainUpperFrom(s: string, e: string, k: nat)
    requires |s| == |e|
    decreases |s| - k
  {
    k >= |s| || ((IsAsciiAlnum(s[k]) || s[k] == ' ') && e[k] == UpperChar(s[k]) && PlainUpperFrom(s, e, k + 1))
  }

  lemma {:induction false} PlainUpperFromAt(s: string, e: string, k: nat)
    requires |s| == |e| && PlainUpperFrom(s, e, k)
    ensures forall i :: k <= i < |s| ==> (IsAsciiAlnum(s[i]) || s[i] == ' ') && e[i] == UpperChar(s[i])
    decreases |s| - k
  {
    if k < |s| {
      PlainUpperFromAt(s, e, k + 1);
    }
  }

  /** A value of letters, digits and inner spaces, neither starting nor
      ending with a space, is normalised to its upper-cased self. */
  lemma NormalisedAs(s: string, expected: string)
    requires s != [] && s[0] != ' ' && s[|s| - 1] != ' '
    requires |expected| == |s| && PlainUpperFrom(s, expected, 0)
    ensures Normalised(s) == expected
  {
    PlainUpperFromAt(s, expected, 0);
    TrimUnchanged(s);
    var n := Normalised(s);
    assert |n| == |s|;
    forall i | 0 <= i < |s|
      ensures n[i] == expected[i]
    {
      assert Trim(s)[i] == s[i];
    }
    SameChars(n, expected);
  }

  /** The four kinds have different lengths, so a row of one kind never
      satisfies a condition on another. */
  lemma KindMismatch(r: Row, c: Condition)
    requires |r.kind| != |c.kind|
    ensures !Satisfies(r, c)
  {
  }

  /** Only row `k` of the sample table has the kind of `c`. */
  lemma OnlyRowOfKind(c: Condition, k: nat)
    requires k < |SAMPLE_ROWS| && c.kind == SAMPLE_ROWS[k].kind
    ensures forall i :: 0 <= i < |SAMPLE_ROWS| && i != k ==> !Satisfies(SAMPLE_ROWS[i], c)
  {
    forall i | 0 <= i < |SAMPLE_ROWS| && i != k ensures !Satisfies(SAMPLE_ROWS[i], c) {
      KindMismatch(SAMPLE_ROWS[i], c);
    }
  }

  lemma SampleRowsPrefix()
    ensures forall i :: 0 <= i < |SAMPLE_ROWS| ==> (Satisfies(SAMPLE_ROWS[i], Condition("prefix", "B", "B")) <==> i == 0)
    ensures forall i :: 0 <= i < |SAMPLE_ROWS| ==> !Satisfies(SAMPLE_ROWS[i], Condition("prefix", "XYZ", "XYZ"))
  {
    OnlyRowOfKind(Condition("prefix", "B", "B"), 0);
    OnlyRowOfKind(Condition("prefix", "XYZ", "XYZ"), 0);
    assert !TextLessEq("XYZ", "H");
  }

  lemma SampleRowsOthers()
    ensures forall i :: 0 <= i < |SAMPLE_ROWS| ==> (Satisfies(SAMPLE_ROWS[i], Condition("tin", "ST25", "ST25")) <==> i == 1)
    ensures forall i :: 0 <= i < |SAMPLE_ROWS| ==> (Satisfies(SAMPLE_ROWS[i], Condition("file", "F I", "F I")) <==> i == 2)
  {
    OnlyRowOfKind(Condition("tin", "ST25", "ST25"), 1);
    OnlyRowOfKind(Condition("file", "F I", "F I"), 2);
    assert TextLessEq("ST20", "ST25") && TextLessEq("ST25", "ST90");
    assert TextLessEq("F G", "F I") && TextLessEq("F I", "F K");
  }

  lemma SampleRowsPlateMatch()
    ensures forall i :: 0 <= i < |SAMPLE_ROWS| ==>
      (Satisfies(SAMPLE_ROWS[i], Condition("licensePlate", "MSA HA 0025", "MSZ HZ 0025")) <==> i == 3)
  {
    OnlyRowOfKind(Condition("licensePlate", "MSA HA 0025", "MSZ HZ 0025"), 3);
    assert TextLessEq("MSA BB 0010", "MSA HA 0025");
    assert TextLessEq("MSZ HZ 0025", "MZZ HH, 0050");
  }

  lemma SampleRowsPlateNoMatch()
    ensures forall i :: 0 <= i < |SAMPLE_ROWS| ==>
      !Satisfies(SAMPLE_ROWS[i], Condition("licensePlate", "MSA AA 0000", "MSZ AA 9999"))
  {
    OnlyRowOfKind(Condition("licensePlate", "MSA AA 0000", "MSZ AA 9999"), 3);
    assert !TextLessEq("MSA BB 0010", "MSA AA 0000");
  }

  lemma NormalisedB()
    ensures RangeCondition("prefix", "b", None) == Condition("prefix", "B", "B")
  {
    NormalisedAs("b", "B");
  }

  lemma NormalisedXyz()
    ensures RangeCondition("prefix", "xyz", None) == Condition("prefix", "XYZ", "XYZ")
  {
    NormalisedAs("xyz", "XYZ");
  }

  lemma NormalisedSt25()
    ensures RangeCondition("tin", "ST25", None) == Condition("tin", "ST25", "ST25")
  {
    NormalisedAs("ST25", "ST25");
  }

  lemma NormalisedFI()
    ensures RangeCondition("file", "f-i", None) == Condition("file", "F I", "F I")
  {
    TrimUnchanged("f-i");
    var n := Normalised("f-i");
    assert n[0] == 'F' && n[1] == ' ' && n[2] == 'I';
    SameChars(n, "F I");
  }

  lemma PlateFromMsH25()
    ensures PlateFrom(Some("ms"), Some("h"), Some("25")) == "msA hA 0025"
  {
    assert Repeat('A', 1) == "A" && Repeat('0', 2) == "00";
  }

  lemma PlateToMsH25()
    ensures PlateTo(Some("ms"), Some("h"), Some("25")) == "msZ hZ 0025"
  {
    assert Repeat('Z', 1) == "Z" && Repeat('0', 2) == "00";
  }

  lemma PlateFromMsAa()
    ensures PlateFrom(Some("ms"), Some("aa"), None) == "msA aa 0000"
  {
    assert Repeat('A', 1) == "A";
  }

  lemma PlateToMsAa()
    ensures PlateTo(Some("ms"), Some("aa"), None) == "msZ aa 9999"
  {
    assert Repeat('Z', 1) == "Z";
  }

  lemma NormalisedMsAh()
    ensures Normalised("msA hA 0025") == "MSA HA 0025"
  {
    var v := "msA hA 0025";
    NormalisedAs(v, "MSA HA 0025");
  }

  lemma NormalisedMsZh()
    ensures Normalised("msZ hZ 0025") == "MSZ HZ 0025"
  {
    var v := "msZ hZ 0025";
    NormalisedAs(v, "MSZ HZ 0025");
  }

  lemma NormalisedMsAa()
    ensures Normalised("msA aa 0000") == "MSA AA 0000"
  {
    var v := "msA aa 0000";
    NormalisedAs(v, "MSA AA 0000");
  }

  lemma NormalisedMsZa()
    ensures Normalised("msZ aa 9999") == "MSZ AA 9999"
  {
    var v := "msZ aa 9999";
    NormalisedAs(v, "MSZ AA 9999");
  }

  lemma PrefixB()
    ensures SqlConditions(DEFAULT.(prefix := Some("b"))) == [Condition("prefix", "B", "B")]
  {
    OnlyPrefix("b");
    NormalisedB();
  }

  lemma PrefixXyz()
    ensures SqlConditions(DEFAULT.(prefix := Some("xyz"))) == [Condition("prefix", "XYZ", "XYZ")]
  {
    OnlyPrefix("xyz");
    NormalisedXyz();
  }

  lemma TinSt25()
    ensures SqlConditions(DEFAULT.(tin := Some("ST25"))) == [Condition("tin", "ST25", "ST25")]
  {
    OnlyTin("ST25");
    NormalisedSt25();
  }

  lemma FileFI()
    ensures SqlConditions(DEFAULT.(file := Some("f-i"))) == [Condition("file", "F I", "F I")]
  {
    OnlyFile("f-i");
    NormalisedFI();
  }

  lemma PlateMsH25()
    ensures SqlConditions(DEFAULT.(licensePlateRegion := Some("ms"), licensePlateLetter := Some("h"),
                                   licensePlateNumber := Some("25")))
      == [Condition("licensePlate", "MSA HA 0025", "MSZ HZ 0025")]
  {
    OnlyPlate("ms", Some("h"), Some("25"));
    PlateFromMsH25();
    PlateToMsH25();
    NormalisedMsAh();
    NormalisedMsZh();
  }

  lemma PlateMsAa()
    ensures SqlConditions(DEFAULT.(licensePlateRegion := Some("ms"), licensePlateLetter := Some("aa")))
      == [Condition("licensePlate", "MSA AA 0000", "MSZ AA 9999")]
  {
    OnlyPlate("ms", Some("aa"), None);
    PlateFromMsAa();
    PlateToMsAa();
    NormalisedMsAa();
    NormalisedMsZa();
  }

  /** An input whose filter is one condition selects the persons of the
      rows satisfying it. */
  lemma SelectedBy(c: CitygovPersonCompetence, cond: Condition, rows: seq<Row>)
    requires SqlConditions(c) == [cond]
    ensures FilteredPersons(c, Some(rows)) == Some(SelectDistinctPersons(rows, [cond]))
  {
    SqlConditionsEmptyIff(c);
  }

  /** `prefix = 'b'` lies in the range `A`..`H`. */
  lemma SamplePrefix()
    ensures FilteredPersons(DEFAULT.(prefix := Some("b")), Some(SAMPLE_ROWS)) == Some([1001])
  {
    PrefixB();
    SampleRowsPrefix();
    SelectOneRow(SAMPLE_ROWS, Condition("prefix", "B", "B"), 0);
    SelectedBy(DEFAULT.(prefix := Some("b")), Condition("prefix", "B", "B"), SAMPLE_ROWS);
  }

  /** `prefix = 'xyz'` lies outside every range: an empty list, not `null`. */
  lemma SamplePrefixNoMatch()
    ensures FilteredPersons(DEFAULT.(prefix := Some("xyz")), Some(SAMPLE_ROWS)) == Some([])
  {
    PrefixXyz();
    SampleRowsPrefix();
    SelectNobody(SAMPLE_ROWS, Condition("prefix", "XYZ", "XYZ"));
    SelectedBy(DEFAULT.(prefix := Some("xyz")), Condition("prefix", "XYZ", "XYZ"), SAMPLE_ROWS);
  }

  /** `tin = 'ST25'` lies in `ST20`..`ST90`. */
  lemma SampleTin()
    ensures FilteredPersons(DEFAULT.(tin := Some("ST25")), Some(SAMPLE_ROWS)) == Some([1001])
  {
    TinSt25();
    SampleRowsOthers();
    SelectOneRow(SAMPLE_ROWS, Condition("tin", "ST25", "ST25"), 1);
    SelectedBy(DEFAULT.(tin := Some("ST25")), Condition("tin", "ST25", "ST25"), SAMPLE_ROWS);
  }

  /** `file = 'f-i'` is normalised to `F I`, which lies in `F G`..`F K`. */
  lemma SampleFile()
    ensures FilteredPersons(DEFAULT.(file := Some("f-i")), Some(SAMPLE_ROWS)) == Some([1001])
  {
    FileFI();
    SampleRowsOthers();
    SelectOneRow(SAMPLE_ROWS, Condition("file", "F I", "F I"), 2);
    SelectedBy(DEFAULT.(file := Some("f-i")), Condition("file", "F I", "F I"), SAMPLE_ROWS);
  }

  /** Region `ms`, letter `h` and number `25` span `MSA HA 0025`..`MSZ HZ
      0025`, which the stored `MSA BB 0010`..`MZZ HH, 0050` contains. */
  lemma SamplePlate()
    ensures FilteredPersons(DEFAULT.(licensePlateRegion := Some("ms"), licensePlateLetter := Some("h"),
                                     licensePlateNumber := Some("25")), Some(SAMPLE_ROWS)) == Some([1001])
  {
    var c := DEFAULT.(licensePlateRegion := Some("ms"), licensePlateLetter := Some("h"), licensePlateNumber := Some("25"));
    var cond := Condition("licensePlate", "MSA HA 0025", "MSZ HZ 0025");
    PlateMsH25();
    SampleRowsPlateMatch();
    SelectOneRow(SAMPLE_ROWS, cond, 3);
    SelectedBy(c, cond, SAMPLE_ROWS);
  }

  /** Region `ms` and letter `aa` start at `MSA AA 0000`, before the stored
      `MSA BB 0010`: the stored range does not contain the search. */
  lemma SamplePlateNoMatch()
    ensures FilteredPersons(DEFAULT.(licensePlateRegion := Some("ms"), licensePlateLetter := Some("aa")),
                            Some(SAMPLE_ROWS)) == Some([])
  {
    var c := DEFAULT.(licensePlateRegion := Some("ms"), licensePlateLetter := Some("aa"));
    var cond := Condition("licensePlate", "MSA AA 0000", "MSZ AA 9999");
    PlateMsAa();
    SampleRowsPlateNoMatch();
    SelectNobody(SAMPLE_ROWS, cond);
    SelectedBy(c, cond, SAMPLE_ROWS);
  }

  lemma PlateFromLong()
    ensures PlateFrom(Some("msabc"), Some("hijk"), Some("25678")) == "msa hi 2567"
  {
  }

  lemma PlateToLong()
    ensures PlateTo(Some("msabc"), Some("hijk"), Some("25678")) == "msa hi 2567"
  {
  }

  lemma NormalisedMsaHi()
    ensures Normalised("msa hi 2567") == "MSA HI 2567"
  {
    var v := "msa hi 2567";
    NormalisedAs(v, "MSA HI 2567");
  }

  lemma PlateLong()
    ensures SqlConditions(DEFAULT.(licensePlateRegion := Some("msabc"), licensePlateLetter := Some("hijk"),
                                   licensePlateNumber := Some("25678")))
      == [Condition("licensePlate", "MSA HI 2567", "MSA HI 2567")]
  {
    OnlyPlate("msabc", Some("hijk"), Some("25678"));
    PlateFromLong();
    PlateToLong();
    NormalisedMsaHi();
  }

  lemma SampleRowsPlateLong()
    ensures forall i :: 0 <= i < |SAMPLE_ROWS| ==>
      (Satisfies(SAMPLE_ROWS[i], Condition("licensePlate", "MSA HI 2567", "MSA HI 2567")) <==> i == 3)
  {
    OnlyRowOfKind(Condition("licensePlate", "MSA HI 2567", "MSA HI 2567"), 3);
    assert TextLessEq("MSA BB 0010", "MSA HI 2567");
    assert TextLessEq("MSA HI 2567", "MZZ HH, 0050");
  }

  /** Over-long parts are cut to `MSA HI 2567` in both bounds, one plate
      inside the stored range. */
  lemma SamplePlateLong()
    ensures FilteredPersons(DEFAULT.(licensePlateRegion := Some("msabc"), licensePlateLetter := Some("hijk"),
                                     licensePlateNumber := Some("25678")), Some(SAMPLE_ROWS)) == Some([1001])
  {
    var c := DEFAULT.(licensePlateRegion := Some("msabc"), licensePlateLetter := Some("hijk"),
                      licensePlateNumber := Some("25678"));
    var cond := Condition("licensePlate", "MSA HI 2567", "MSA HI 2567");
    PlateLong();
    SampleRowsPlateLong();
    SelectOneRow(SAMPLE_ROWS, cond, 3);
    SelectedBy(c, cond, SAMPLE_ROWS);
  }

  /** Without a filter the result is `null`, whatever the table holds. */
  lemma SampleNoFilter(rows: Option<seq<Row>>)
    ensures FilteredPersons(DEFAULT, rows) == None
  {
  }

  // ---------------------------------------------------------------------------
  // The factory
  // ---------------------------------------------------------------------------

  class CompetenceFilterFactory {
    const resourceDir: string
    const databasePath: string
    const databaseName: string
    /** The open connection, named by its data source name; `None` until
        first used. */
    var database: Option<string>

    /** `'sqlite:' . resourceDir . databasePath . databaseName`. */
    function DataSourceName(): string {
      "sqlite:" + resourceDir + databasePath + databaseName
    }

    /** An open connection is always the one the paths name. */
    ghost predicate Valid()
      reads this
    {
      database.Some? ==> database.value == DataSourceName()
    }

    constructor (resourceDir: string, databasePath: string, databaseName: string)
      ensures this.resourceDir == WithTrailingSlash(resourceDir)
      ensures this.databasePath == WithTrailingSlash(databasePath)
      ensures this.databaseName == databaseName
      ensures database.None? && Valid()
    {
      this.resourceDir := if |resourceDir| > 0 && resourceDir[|resourceDir| - 1] == '/' then resourceDir else resourceDir + "/";
      this.databasePath := if |databasePath| > 0 && databasePath[|databasePath| - 1] == '/' then databasePath else databasePath + "/";
      this.databaseName := databaseName;
      database := None;
    }

    /** `getDatabase`: opens the connection on first use. */
    method GetDatabase() returns (dsn: string)
      requires Valid()
      modifies this
      ensures Valid()
      ensures dsn == DataSourceName() && database == Some(dsn)
    {
      if database.None? {
        database := Some(DataSourceName());
      }
      dsn := database.value;
    }

    /** `normaliseToAlpanumericString`. */
    method NormaliseToAlphanumeric(str: string) returns (s: string)
      ensures s == Normalised(str)
    {
      s := "";
      var t := ToUpper(Trim(str));
      for i := 0 to |t|
        invariant s == AlnumOrSpaces(t[..i])
      {
        assert t[..i + 1][..i] == t[..i];
        if IsAsciiAlnum(t[i]) {
          s := s + [t[i]];
        } else {
          s := s + [' '];
        }
      }
      assert t[..|t|] == t;
    }

    /** `getConditionRangeBy`. */
    method GetConditionRangeBy(kind: string, rangeFrom: string, rangeTo: Option<string>) returns (c: Condition)
      requires Valid()
      modifies this
      ensures Valid() && database == Some(DataSourceName())
      ensures c == RangeCondition(kind, rangeFrom, rangeTo)
    {
      var to := rangeTo.GetOr(rangeFrom);
      var from := NormaliseToAlphanumeric(rangeFrom);
      from := ToUpper(from);
      var _ := GetDatabase();
      to := NormaliseToAlphanumeric(to);
      to := ToUpper(to);
      c := Condition(kind, from, to);
    }

    /** One component of `getConditionByLicensePlate`: the two defaults,
        replaced by the value when it is set, then each bound cut off after
        `width` characters or padded to `width`. */
    method FitComponent(v: Option<string>, width: nat, lowDefault: string, highDefault: string,
                        lowPad: char, highPad: char, padLeft: bool)
      returns (low: string, high: string)
      requires |lowDefault| == width && |highDefault| == width
      ensures low == Component(v, width, lowDefault, lowPad, padLeft)
      ensures high == Component(v, width, highDefault, highPad, padLeft)
    {
      low, high := lowDefault, highDefault;
      if IsSet(v) {
        low, high := v.value, v.value;
        if |low| > width {
          low := low[..width];
        } else if |low| < width {
          low := if padLeft then Repeat(lowPad, width - |low|) + low else low + Repeat(lowPad, width - |low|);
        }
        if |high| > width {
          high := high[..width];
        } else if |high| < width {
          high := if padLeft then Repeat(highPad, width - |high|) + high else high + Repeat(highPad, width - |high|);
        }
      }
    }

    /** `getConditionByLicensePlate`. */
    method GetConditionByLicensePlate(region: Option<string>, letter: Option<string>, number: Option<string>)
      returns (c: Condition)
      requires Valid()
      modifies this
      ensures Valid() && database == Some(DataSourceName())
      ensures c == LicensePlateCondition(region, letter, number)
    {
      var regionFrom, regionTo := FitComponent(region, 3, "AAA", "ZZZ", 'A', 'Z', false);
      var letterFrom, letterTo := FitComponent(letter, 2, "AA", "ZZ", 'A', 'Z', false);
      var numberFrom, numberTo := FitComponent(number, 4, "0000", "9999", '0', '0', true);
      var searchFrom := regionFrom + " " + letterFrom + " " + numberFrom;
      var searchTo := regionTo + " " + letterTo + " " + numberTo;
      c := GetConditionRangeBy(COLUMN_TYPE_LICENSE_PLATE, searchFrom, Some(searchTo));
    }

    /** `getPersonSqlFilter`. */
    method GetPersonSqlFilter(input: CitygovPersonCompetence) returns (cs: seq<Condition>)
      requires Valid()
      modifies this
      ensures Valid()
      ensures cs == SqlConditions(input)
      ensures database == (if cs == [] then old(database) else Some(DataSourceName()))
    {
      cs := [];
      if !HasFilter(input) {
        return;
      }
      SqlConditionsEmptyIff(input);
      ghost var scalars := ScalarCondition(COLUMN_TYPE_PREFIX, input.prefix) + ScalarCondition(COLUMN_TYPE_TIN, input.tin)
        + ScalarCondition(COLUMN_TYPE_FILE, input.file);
      assert SqlConditions(input) == scalars + PlateCondition(input);
      cs := AppendScalarCondition(cs, COLUMN_TYPE_PREFIX, input.prefix);
      assert cs == ScalarCondition(COLUMN_TYPE_PREFIX, input.prefix);
      cs := AppendScalarCondition(cs, COLUMN_TYPE_TIN, input.tin);
      cs := AppendScalarCondition(cs, COLUMN_TYPE_FILE, input.file);
      assert cs == scalars;
      assert cs == [] ==> database == old(database);
      assert cs != [] ==> database == Some(DataSourceName());
      if input.licensePlateRegion.Some? || input.licensePlateNumber.Some? || input.licensePlateLetter.Some? {
        var c := GetConditionByLicensePlate(input.licensePlateRegion, input.licensePlateLetter, input.licensePlateNumber);
        cs := cs + [c];
      }
      assert cs == scalars + PlateCondition(input);
    }

    /** One `if (… !== null) { $sqlConditions[] = … }` step of
        `getPersonSqlFilter` for a scalar field. */
    method AppendScalarCondition(cs: seq<Condition>, kind: string, v: Option<string>) returns (r: seq<Condition>)
      requires Valid()
      modifies this
      ensures Valid()
      ensures r == cs + ScalarCondition(kind, v)
      ensures database == (if v.Some? then Some(DataSourceName()) else old(database))
    {
      r := cs;
      if v.Some? {
        var c := GetConditionRangeBy(kind, v.value, None);
        r := r + [c];
      }
    }

    /** `getfilteredPersonIdList`. `execute` stands for preparing and running
        the statement on the database a data source name opens: the rows of
        its `CompetenceRange` table, or `None` when that fails. */
    method GetFilteredPersonIdList(input: CitygovPersonCompetence, execute: string -> Option<seq<Row>>)
      returns (ids: Option<seq<int>>)
      requires Valid()
      modifies this
      ensures Valid()
      ensures ids == FilteredPersons(input, execute(DataSourceName()))
      ensures database == (if HasFilter(input) then Some(DataSourceName()) else old(database))
    {
      var cs := GetPersonSqlFilter(input);
      SqlConditionsEmptyIff(input);
      if cs == [] {
        return None;
      }
      var dsn := GetDatabase();
      var rows := execute(dsn);
      if rows.None? {
        return None;
      }
      ids := Some(SelectDistinctPersons(rows.value, cs));
    }
  }
}
