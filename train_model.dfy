/**
 * The deterministic feature engineering of `train_model.py`: the month-to-season
 * lookup, the column fixer, Age/Sex/Symptoms cleaning, the symptom flags, the
 * synthetic risk label, the synthetic platelet trajectory and the two feature
 * lists. `Train` runs these steps on a DataFrame in the source's order and returns
 * the feature matrices and targets that the source hands to the model fitting.
 */
module TrainModel {
  import opened Results
  import opened Text
  import opened Frames

  // ---------------------------------------------------------------- column names

  const AgeColumn := "Age"
  const SexColumn := "Sex"
  const DateColumn := "Date of Test & Time of Test"
  const SeasonColumn := "Season_Risk"
  const SymptomsColumn := "Symptoms"
  const SexCodeColumn := "Sex_Code"
  const PlateletColumn := "Platelet (cells/cu.mm)"
  const HaemoglobinColumn := "Haemoglobin (gm/Dl)"
  const RbcColumn := "Red Blood Cell Count (millions/cu.mm)"
  const HematocritColumn := "Hematocrit (Packed Cell Volume) (%)"
  const LabelColumn := "Dengue_Label"
  const Day1Column := "Day1_Platelets"
  const Day2Column := "Day2_Platelets"
  const DeltaColumn := "Delta_Day1_Day2"
  const Day3Column := "Day3_Platelets"
  const RecoveringColumn := "Is_Recovering"

  const SymptomKeywords := ["fever", "headache", "pain", "vomit", "nausea", "rash"]

  /** The flag column names as spelled; `FlagNamesSpelled` proves the keywords generate them. */
  const FlagColumns := ["Has_Fever", "Has_Headache", "Has_Pain", "Has_Vomit", "Has_Nausea", "Has_Rash"]

  const ClfFeatures := [
    PlateletColumn, HaemoglobinColumn, RbcColumn, HematocritColumn,
    AgeColumn, SexCodeColumn,
    "Has_Fever", "Has_Headache", "Has_Pain", "Has_Vomit",
    SeasonColumn
  ]

  const RegFeatures := [
    Day1Column, Day2Column, DeltaColumn,
    HaemoglobinColumn, RbcColumn, HematocritColumn, AgeColumn, SexCodeColumn,
    "Has_Fever", "Has_Vomit", "Has_Pain", "Has_Headache",
    SeasonColumn
  ]

  // ---------------------------------------------------------------- season

  /** `get_season`: winter 0, summer 1, post-monsoon 2, monsoon 3; any other number 0. */
  function Season(month: int): (r: int)
    ensures 0 <= r <= 3
  {
    if month in [12, 1, 2] then 0
    else if month in [3, 4, 5] then 1
    else if month in [6, 7, 8, 9] then 3
    else if month in [10, 11] then 2
    else 0
  }

  /** Which months give which score, in both directions; an unparsed date (month 0) scores 0. */
  lemma SeasonOfMonth(month: int)
    ensures Season(month) == 3 <==> 6 <= month <= 9
    ensures Season(month) == 2 <==> 10 <= month <= 11
    ensures Season(month) == 1 <==> 3 <= month <= 5
    ensures Season(month) == 0 <==> month < 3 || 12 <= month
  {
  }

  /** `dt.month.fillna(0).astype(int).apply(get_season)` on one parsed date. */
  function SeasonCell(month: Option<int>): (c: Cell)
    ensures c.Num? && 0.0 <= c.x <= 3.0
    ensures month.None? ==> c == Num(0.0)
  {
    Num(Season(month.GetOr(0)) as real)
  }

  // ---------------------------------------------------------------- column fixer

  /** `[c for c in names if keyword in c.lower()]` */
  function Candidates(names: seq<string>, keyword: string): (r: seq<string>)
    ensures forall n :: n in r <==> n in names && Contains(Lower(n), keyword)
  {
    if names == [] then []
    else (if Contains(Lower(names[0]), keyword) then [names[0]] else []) + Candidates(names[1..], keyword)
  }

  /** The column the fixer renames is the first one, in column order, whose lower-cased name contains the keyword. */
  lemma {:induction false} FirstCandidate(names: seq<string>, keyword: string)
    requires Candidates(names, keyword) != []
    ensures exists i ::
      && 0 <= i < |names| && names[i] == Candidates(names, keyword)[0]
      && Contains(Lower(names[i]), keyword)
      && forall j :: 0 <= j < i ==> !Contains(Lower(names[j]), keyword)
  {
    if Contains(Lower(names[0]), keyword) {
      assert names[0] == Candidates(names, keyword)[0];
    } else {
      assert Candidates(names, keyword) == Candidates(names[1..], keyword);
      FirstCandidate(names[1..], keyword);
      var i :|
        && 0 <= i < |names[1..]| && names[1..][i] == Candidates(names[1..], keyword)[0]
        && Contains(Lower(names[1..][i]), keyword)
        && forall j :: 0 <= j < i ==> !Contains(Lower(names[1..][j]), keyword);
      assert names[i + 1] == names[1..][i];
      forall j | 0 <= j < i + 1 ensures !Contains(Lower(names[j]), keyword) {
        if j > 0 {
          assert names[j] == names[1..][j - 1];
        }
      }
    }
  }

  /**
   * The smart column fixer for one column: nothing happens if `target` exists;
   * otherwise the first column whose lower-cased name contains `keyword` is
   * renamed to `target`, and if there is none a column of `default` is added.
   */
  function Fixed(t: Table, target: string, keyword: string, default: Cell): (r: Table)
    requires t.Valid()
    ensures r.Valid() && target in r.data && r.rows == t.rows
  {
    if target in t.data then t
    else
      var candidates := Candidates(t.names, keyword);
      if candidates != [] then
        assert candidates[0] in candidates;
        t.Renamed(candidates[0], target)
      else t.With(target, Fill(t.rows, default))
  }

  /**
   * What the fixer does to the columns: an existing `target` leaves the table as it
   * is; otherwise the first matching column keeps its cells and its position under
   * the new name, or a default column is appended; every other column is untouched.
   */
  lemma FixedColumns(t: Table, target: string, keyword: string, default: Cell)
    requires t.Valid()
    ensures target in t.data ==> Fixed(t, target, keyword, default) == t
    ensures target !in t.data && Candidates(t.names, keyword) != [] ==>
      var r, from := Fixed(t, target, keyword, default), Candidates(t.names, keyword)[0];
      && from in t.data && from !in r.data && r.data[target] == t.data[from]
      && |r.names| == |t.names|
      && (forall i :: 0 <= i < |t.names| ==> r.names[i] == if t.names[i] == from then target else t.names[i])
      && (forall n :: n in t.data && n != from ==> n in r.data && r.data[n] == t.data[n])
    ensures target !in t.data && Candidates(t.names, keyword) == [] ==>
      var r := Fixed(t, target, keyword, default);
      && r.names == t.names + [target] && r.data[target] == Fill(t.rows, default)
      && (forall n :: n in t.data ==> r.data[n] == t.data[n])
  {
    if target !in t.data && Candidates(t.names, keyword) != [] {
      assert Candidates(t.names, keyword)[0] in Candidates(t.names, keyword);
    }
  }

  /** `Age` and then `Sex` fixed: both columns are present afterwards, whatever the input had. */
  lemma FixerProvidesAgeAndSex(t: Table)
    requires t.Valid()
    ensures var r := Fixed(Fixed(t, AgeColumn, "age", Num(30.0)), SexColumn, "sex", Str("Male"));
      AgeColumn in r.data && SexColumn in r.data
  {
    var u := Fixed(t, AgeColumn, "age", Num(30.0));
    AgeIsNoSexCandidate();
    FixedColumns(u, SexColumn, "sex", Str("Male"));
  }

  /** Helper: the name "Age" does not contain "sex", so the Sex fixer never renames it. */
  lemma AgeIsNoSexCandidate()
    ensures !Contains(Lower(AgeColumn), "sex")
  {
    var age := Lower(AgeColumn);
    assert age == "age";
    assert age[..3][0] == 'a' != "sex"[0];
    assert age[1..] == "ge";
  }

  /** The fixer applied in place to a DataFrame. */
  method FixColumn(df: DataFrame, target: string, keyword: string, default: Cell)
    requires df.Valid()
    modifies df
    ensures df.Valid() && df.Snapshot() == Fixed(old(df.Snapshot()), target, keyword, default)
  {
    if target !in df.data {
      var candidates := Candidates(df.names, keyword);
      if candidates != [] {
        assert candidates[0] in candidates;
        df.Rename(candidates[0], target);
      } else {
        df.Assign(target, Fill(df.rows, default));
      }
    }
  }

  // ---------------------------------------------------------------- cleaning

  /** `pd.to_numeric(..., errors='coerce')` on one cell; `parse` is pandas' number parser. */
  function ToNumeric(c: Cell, parse: string -> Option<real>): (r: Cell)
    ensures !r.Str?
    ensures c.Num? ==> r == c
  {
    match c
    case Num(_) => c
    case Str(s) => if parse(s).Some? then Num(parse(s).value) else Missing
    case Missing => Missing
  }

  /** Age cleaning: numbers are kept, parseable text becomes its number, anything else becomes 30. */
  function CleanAge(c: Cell, parse: string -> Option<real>): (r: Cell)
    ensures r.Num?
    ensures c.Num? ==> r == c
    ensures c.Missing? ==> r == Num(30.0)
    ensures c.Str? ==> r == Num(parse(c.s).GetOr(30.0))
  {
    FillNa(ToNumeric(c, parse), Num(30.0))
  }

  /** The decimal digits of `n`. */
  function Digits(n: nat): (r: string)
    ensures |r| > 0 && forall i :: 0 <= i < |r| ==> '0' <= r[i] <= '9'
  {
    if n < 10 then [('0' as int + n) as char] else Digits(n / 10) + [('0' as int + n % 10) as char]
  }

  /**
   * `astype(str)` on one cell. NaN prints as "nan"; a number is approximated by the
   * digits of its integer part followed by ".0".
   */
  function AsStr(c: Cell): (r: string)
    ensures c.Num? ==> forall i :: 0 <= i < |r| ==> !IsCased(r[i])
  {
    match c
    case Str(s) => s
    case Missing => "nan"
    case Num(x) =>
      var k := x.Floor;
      (if k < 0 then "-" else "") + Digits(if k < 0 then -k else k) + ".0"
  }

  /** `df['Sex'].astype(str).str.title().str.strip()` on one cell. */
  function CleanSex(c: Cell): (r: Cell)
    ensures r.Str? && (r.s != [] ==> !IsSpace(r.s[0]) && !IsSpace(r.s[|r.s| - 1]))
  {
    Str(Strip(Title(AsStr(c))))
  }

  /** `.map({'Male': 1, 'Female': 0}).fillna(0)` on one cleaned Sex value. */
  function SexCode(sex: Cell): (r: Cell)
    ensures r == Num(1.0) || r == Num(0.0)
    ensures r == Num(1.0) <==> sex == Str("Male")
  {
    if sex == Str("Male") then Num(1.0)
    else if sex == Str("Female") then Num(0.0)
    else Num(0.0)
  }

  lemma CapitalizedMale()
    ensures Capitalize("male") == "Male"
  {
    assert Lower("ale") == "ale";
  }

  /**
   * After cleaning, Sex_Code is 1 exactly for the values that read "male" once
   * white space is stripped, in any mix of upper and lower case; it is 0 otherwise.
   */
  lemma SexCodeIsCaseInsensitiveMale(c: Cell)
    ensures SexCode(CleanSex(c)) == Num(1.0) <==> Lower(Strip(AsStr(c))) == "male"
    ensures SexCode(CleanSex(c)) == Num(0.0) <==> Lower(Strip(AsStr(c))) != "male"
  {
    StripTitle(AsStr(c));
    CapitalizedMale();
    TitleMatchesCapitalized(Strip(AsStr(c)), "male");
  }

  /** `df['Symptoms'].fillna("").astype(str).str.lower()` on one cell. */
  function CleanSymptoms(c: Cell): (r: Cell)
    ensures r.Str? && forall i :: 0 <= i < |r.s| ==> !IsUpper(r.s[i])
    ensures c.Missing? ==> r == Str("")
  {
    Str(Lower(AsStr(FillNa(c, Str("")))))
  }

  /** The name of the flag column for a symptom keyword: `f'Has_{s.capitalize()}'`. */
  function FlagName(keyword: string): (n: string)
    ensures |n| > 4 || keyword == []
  {
    "Has_" + Capitalize(keyword)
  }

  /** `lambda x: 1 if s in x else 0` on one cleaned Symptoms value. */
  function Flag(symptoms: Cell, keyword: string): (r: Cell)
    ensures r == Num(1.0) || r == Num(0.0)
    ensures r == Num(1.0) <==> Occurs(keyword, AsStr(symptoms))
  {
    Num(if Contains(AsStr(symptoms), keyword) then 1.0 else 0.0)
  }

  /** A flag is 1 exactly when its keyword occurs in the cleaned symptom text; missing symptoms raise none. */
  lemma FlagIsSubstring(c: Cell, keyword: string)
    requires keyword != []
    ensures Flag(CleanSymptoms(c), keyword) == Num(1.0) <==> Occurs(keyword, Lower(AsStr(FillNa(c, Str("")))))
    ensures Flag(CleanSymptoms(c), keyword) == Num(0.0) <==> !Occurs(keyword, Lower(AsStr(FillNa(c, Str("")))))
    ensures c.Missing? ==> Flag(CleanSymptoms(c), keyword) == Num(0.0)
  {
    LowerIdempotent(AsStr(FillNa(c, Str(""))));
  }

  /** Helper: lower-casing is idempotent, so the cleaned text is its own lower-cased form. */
  lemma LowerIdempotent(s: string)
    ensures Lower(Lower(s)) == Lower(s)
  {
  }

  /** The names of the generated flag columns, in keyword order. */
  function FlagNames(): (ns: seq<string>)
    ensures |ns| == |SymptomKeywords|
  {
    seq(|SymptomKeywords|, i requires 0 <= i < |SymptomKeywords| => FlagName(SymptomKeywords[i]))
  }

  /** The generated flag columns are Has_Fever, Has_Headache, Has_Pain, Has_Vomit, Has_Nausea and Has_Rash. */
  lemma FlagNamesSpelled()
    ensures FlagNames() == FlagColumns
  {
    forall i | 0 <= i < |SymptomKeywords|
      ensures FlagNames()[i] == FlagColumns[i]
    {
      FlagNameOf(i);
    }
  }

  /** The flag name generated for keyword `i` is the `i`-th spelled flag column. */
  lemma FlagNameOf(i: nat)
    requires i < |SymptomKeywords|
    ensures FlagName(SymptomKeywords[i]) == FlagColumns[i]
  {
    if i == 0 {
      assert SymptomKeywords[i] == "fever" && FlagColumns[i] == "Has_Fever";
      assert Lower("ever") == "ever";
    } else if i == 1 {
      assert SymptomKeywords[i] == "headache" && FlagColumns[i] == "Has_Headache";
      assert Lower("eadache") == "eadache";
    } else if i == 2 {
      assert SymptomKeywords[i] == "pain" && FlagColumns[i] == "Has_Pain";
      assert Lower("ain") == "ain";
    } else if i == 3 {
      assert SymptomKeywords[i] == "vomit" && FlagColumns[i] == "Has_Vomit";
      assert Lower("omit") == "omit";
    } else if i == 4 {
      assert SymptomKeywords[i] == "nausea" && FlagColumns[i] == "Has_Nausea";
      assert Lower("ausea") == "ausea";
    } else {
      assert SymptomKeywords[i] == "rash" && FlagColumns[i] == "Has_Rash";
      assert Lower("ash") == "ash";
    }
  }

  /** Helper: no column the pipeline reads or writes by name is a flag column. */
  lemma NotFlags()
    ensures AgeColumn !in FlagColumns && SexColumn !in FlagColumns && DateColumn !in FlagColumns
    ensures SeasonColumn !in FlagColumns && SymptomsColumn !in FlagColumns && SexCodeColumn !in FlagColumns
  {
  }

  /** The flag columns have distinct names, all starting with "Has_". */
  lemma FlagNamesFresh()
    ensures Distinct(FlagNames())
    ensures forall n :: n in FlagNames() ==> |n| > 4 && n[..4] == "Has_"
  {
    FlagNamesSpelled();
    FlagColumnsFresh();
  }

  /** Helper: the spelled flag names differ in their fifth letter. */
  lemma FlagColumnsFresh()
    ensures Distinct(FlagColumns)
    ensures forall i :: 0 <= i < |FlagColumns| ==> |FlagColumns[i]| > 4 && FlagColumns[i][..4] == "Has_"
  {
    var initials := "FHPVNR";
    assert forall i :: 0 <= i < |FlagColumns| ==> FlagColumns[i][4] == initials[i];
  }

  // ---------------------------------------------------------------- whole-column steps

  function AgeCells(col: seq<Cell>, parse: string -> Option<real>): (r: seq<Cell>)
    ensures |r| == |col|
  {
    seq(|col|, i requires 0 <= i < |col| => CleanAge(col[i], parse))
  }

  function SexCells(col: seq<Cell>): (r: seq<Cell>)
    ensures |r| == |col|
  {
    seq(|col|, i requires 0 <= i < |col| => CleanSex(col[i]))
  }

  function SeasonCells(dates: seq<Cell>, monthOf: Cell -> Option<int>): (r: seq<Cell>)
    ensures |r| == |dates|
  {
    seq(|dates|, i requires 0 <= i < |dates| => SeasonCell(monthOf(dates[i])))
  }

  function SymptomCells(col: seq<Cell>): (r: seq<Cell>)
    ensures |r| == |col|
  {
    seq(|col|, i requires 0 <= i < |col| => CleanSymptoms(col[i]))
  }

  function FlagCells(symptoms: seq<Cell>, keyword: string): (r: seq<Cell>)
    ensures |r| == |symptoms|
  {
    seq(|symptoms|, i requires 0 <= i < |symptoms| => Flag(symptoms[i], keyword))
  }

  function SexCodeCells(sex: seq<Cell>): (r: seq<Cell>)
    ensures |r| == |sex|
  {
    seq(|sex|, i requires 0 <= i < |sex| => SexCode(sex[i]))
  }

  // ---------------------------------------------------------------- synthetic label

  /** `c < bound` in pandas: NaN compares false. */
  predicate Below(c: Cell, bound: real) { c.Num? && c.x < bound }

  /** `c > bound` in pandas: NaN compares false. */
  predicate Above(c: Cell, bound: real) { c.Num? && c.x > bound }

  /** `Dengue_Label` on one row: 1 when platelets < 100000, hematocrit > 50 or haemoglobin < 7, else 0. */
  function DengueLabel(platelet: Cell, hematocrit: Cell, haemoglobin: Cell): (r: Cell)
    ensures r == Num(1.0) || r == Num(0.0)
  {
    Num(if Below(platelet, 100000.0) || Above(hematocrit, 50.0) || Below(haemoglobin, 7.0) then 1.0 else 0.0)
  }

  /** The label is 0 or 1, and 1 exactly when one of the three thresholds is crossed. */
  lemma DengueLabelThresholds(platelet: real, hematocrit: real, haemoglobin: real)
    ensures var l := DengueLabel(Num(platelet), Num(hematocrit), Num(haemoglobin));
      && (l == Num(1.0) <==> platelet < 100000.0 || hematocrit > 50.0 || haemoglobin < 7.0)
      && (l == Num(0.0) <==> platelet >= 100000.0 && hematocrit <= 50.0 && haemoglobin >= 7.0)
  {
  }

  /** Lower platelets, higher hematocrit or lower haemoglobin never turn a positive label negative. */
  lemma DengueLabelMonotone(p: real, hct: real, hb: real, p': real, hct': real, hb': real)
    requires p' <= p && hct' >= hct && hb' <= hb
    requires DengueLabel(Num(p), Num(hct), Num(hb)) == Num(1.0)
    ensures DengueLabel(Num(p'), Num(hct'), Num(hb')) == Num(1.0)
  {
  }

  /** A missing reading never crosses its threshold: a row with no readings is labelled 0. */
  lemma DengueLabelOfMissing()
    ensures DengueLabel(Missing, Missing, Missing) == Num(0.0)
  {
  }

  function LabelCells(platelet: seq<Cell>, hematocrit: seq<Cell>, haemoglobin: seq<Cell>): (r: seq<Cell>)
    requires |platelet| == |hematocrit| == |haemoglobin|
    ensures |r| == |platelet|
    ensures forall i :: 0 <= i < |r| ==> r[i] == DengueLabel(platelet[i], hematocrit[i], haemoglobin[i])
  {
    seq(|platelet|, i requires 0 <= i < |platelet| => DengueLabel(platelet[i], hematocrit[i], haemoglobin[i]))
  }

  /** Errors `main` can raise on a loaded table. */
  datatype Error = KeyError(keys: seq<string>) | TypeError(column: string)

  /** A column that pandas can compare with a number: it holds no text. */
  predicate Comparable(col: seq<Cell>) {
    forall i :: 0 <= i < |col| ==> !col[i].Str?
  }

  /**
   * The errors the label expression raises, in evaluation order: each lab column is
   * looked up (KeyError) and then compared (TypeError on text) before the next one.
   */
  function LabError(t: Table): (e: Option<Error>)
    requires t.Valid()
    ensures e.None? <==>
      && PlateletColumn in t.data && Comparable(t.data[PlateletColumn])
      && HematocritColumn in t.data && Comparable(t.data[HematocritColumn])
      && HaemoglobinColumn in t.data && Comparable(t.data[HaemoglobinColumn])
  {
    if PlateletColumn !in t.data then Some(KeyError([PlateletColumn]))
    else if !Comparable(t.data[PlateletColumn]) then Some(TypeError(PlateletColumn))
    else if HematocritColumn !in t.data then Some(KeyError([HematocritColumn]))
    else if !Comparable(t.data[HematocritColumn]) then Some(TypeError(HematocritColumn))
    else if HaemoglobinColumn !in t.data then Some(KeyError([HaemoglobinColumn]))
    else if !Comparable(t.data[HaemoglobinColumn]) then Some(TypeError(HaemoglobinColumn))
    else None
  }

  // ---------------------------------------------------------------- feature lists

  /** `clf_features` names 11 distinct columns and `reg_features` 13. */
  lemma FeatureListsDistinct()
    ensures |ClfFeatures| == 11 && Distinct(ClfFeatures)
    ensures |RegFeatures| == 13 && Distinct(RegFeatures)
  {
  }

  /**
   * The `Has_*` features are generated flag columns: Fever, Headache, Pain and
   * Vomit (Nausea and Rash are generated but not used).
   */
  lemma FeatureFlagsGenerated()
    ensures ClfFeatures[6..10] == FlagNames()[..4]
    ensures RegFeatures[8..12] == [FlagNames()[0], FlagNames()[3], FlagNames()[2], FlagNames()[1]]
  {
    FlagNamesSpelled();
  }

  // ---------------------------------------------------------------- synthetic trajectory

  /** The random draws of the forecast section, one per row. */
  datatype Draws = Draws(recovering: seq<bool>, volatility: seq<real>, noise: seq<real>)

  /** `Day1_Platelets` on one row: Day2 divided by (1 + volatility) when recovering, multiplied otherwise. */
  function Day1Cell(day2: Cell, recovering: bool, volatility: real): (r: Cell)
    requires volatility >= 0.0
    ensures r.Num? <==> day2.Num?
    ensures day2.Num? && day2.x >= 0.0 ==> r.x >= 0.0
  {
    if day2.Num? then Num(if recovering then day2.x / (1.0 + volatility) else day2.x * (1.0 + volatility))
    else Missing
  }

  /** `Delta_Day1_Day2 = Day2_Platelets - Day1_Platelets` on one row (NaN if either is NaN). */
  function Delta(day2: Cell, day1: Cell): (r: Cell)
    ensures r.Num? <==> day2.Num? && day1.Num?
    ensures r.Num? ==> day1.x + r.x == day2.x
  {
    if day2.Num? && day1.Num? then Num(day2.x - day1.x) else Missing
  }

  /** `Day3_Platelets = Day2 + 0.9 * Delta + noise` on one row. */
  function Day3Cell(day2: Cell, delta: Cell, noise: real): (r: Cell)
    ensures r.Num? <==> day2.Num? && delta.Num?
  {
    if day2.Num? && delta.Num? then Num(day2.x + delta.x * 0.9 + noise) else Missing
  }

  /**
   * The synthetic trend has the drawn direction: for a positive count and a
   * volatility in [0.10, 0.25], Delta is positive exactly for recovering rows.
   */
  lemma SyntheticTrend(day2: real, recovering: bool, volatility: real)
    requires day2 > 0.0 && 0.10 <= volatility <= 0.25
    ensures var d := Delta(Num(day2), Day1Cell(Num(day2), recovering, volatility));
      && d.Num?
      && (recovering <==> d.x > 0.0)
      && (!recovering <==> d.x < 0.0)
  {
    var v := volatility;
    if recovering {
      assert day2 / (1.0 + v) < day2 by {
        assert day2 == (day2 / (1.0 + v)) * (1.0 + v);
        assert day2 / (1.0 + v) > 0.0;
      }
    } else {
      assert day2 * (1.0 + v) == day2 + day2 * v;
      assert day2 * v > 0.0;
    }
  }

  function RecoveringCells(recovering: seq<bool>): (r: seq<Cell>)
    ensures |r| == |recovering|
  {
    seq(|recovering|, i requires 0 <= i < |recovering| => Num(if recovering[i] then 1.0 else 0.0))
  }

  function Day1Cells(day2: seq<Cell>, draws: Draws): (r: seq<Cell>)
    requires |draws.recovering| == |draws.volatility| == |day2|
    requires forall i :: 0 <= i < |draws.volatility| ==> draws.volatility[i] >= 0.0
    ensures |r| == |day2|
  {
    seq(|day2|, i requires 0 <= i < |day2| => Day1Cell(day2[i], draws.recovering[i], draws.volatility[i]))
  }

  function DeltaCells(day2: seq<Cell>, day1: seq<Cell>): (r: seq<Cell>)
    requires |day2| == |day1|
    ensures |r| == |day2|
  {
    seq(|day2|, i requires 0 <= i < |day2| => Delta(day2[i], day1[i]))
  }

  function Day3Cells(day2: seq<Cell>, delta: seq<Cell>, noise: seq<real>): (r: seq<Cell>)
    requires |day2| == |delta| == |noise|
    ensures |r| == |day2|
  {
    seq(|day2|, i requires 0 <= i < |day2| => Day3Cell(day2[i], delta[i], noise[i]))
  }

  // ---------------------------------------------------------------- main

  /** What `main` hands to model fitting: the two feature matrices and their targets. */
  datatype TrainingData = TrainingData(xClf: seq<Column>, yClf: seq<Cell>, xReg: seq<Column>, yReg: seq<Cell>)

  // ---------------------------------------------------------------- main, sections 0 and 1

  /**
   * The table after the flag loop has run for the first `j` keywords, the flag of
   * `keywords[i]` being named `names[i]`. The loop of `main` runs it with the
   * symptom keywords and `FlagColumns`, which `FlagNameOf` shows are their `FlagName`s.
   */
  function WithFlags(t: Table, names: seq<string>, keywords: seq<string>, j: nat): (r: Table)
    requires t.Valid() && SymptomsColumn in t.data && SymptomsColumn !in names
    requires j <= |names| == |keywords|
    ensures r.Valid() && r.rows == t.rows
    ensures forall n :: n in t.data ==> n in r.data
    ensures r.data[SymptomsColumn] == t.data[SymptomsColumn]
  {
    if j == 0 then t
    else
      var u := WithFlags(t, names, keywords, j - 1);
      u.With(names[j - 1], FlagCells(u.data[SymptomsColumn], keywords[j - 1]))
  }

  /** The loop adds the flag of each of the first `j` keywords, computed from the symptom text. */
  lemma {:induction false} WithFlagsAdds(t: Table, names: seq<string>, keywords: seq<string>, j: nat)
    requires t.Valid() && SymptomsColumn in t.data && SymptomsColumn !in names
    requires j <= |names| == |keywords| && Distinct(names)
    ensures forall i :: 0 <= i < j ==>
      names[i] in WithFlags(t, names, keywords, j).data &&
      WithFlags(t, names, keywords, j).data[names[i]] == FlagCells(t.data[SymptomsColumn], keywords[i])
  {
    if j > 0 {
      WithFlagsAdds(t, names, keywords, j - 1);
    }
  }

  /** The loop leaves every column that is not a flag as it was, and adds no other column. */
  lemma {:induction false} WithFlagsKeeps(t: Table, names: seq<string>, keywords: seq<string>, j: nat)
    requires t.Valid() && SymptomsColumn in t.data && SymptomsColumn !in names
    requires j <= |names| == |keywords|
    ensures forall n :: n in t.data && n !in names ==> WithFlags(t, names, keywords, j).data[n] == t.data[n]
    ensures forall n :: n in WithFlags(t, names, keywords, j).data ==> n in t.data || n in names
  {
    if j > 0 {
      WithFlagsKeeps(t, names, keywords, j - 1);
    }
  }

  /** The table after the column fixer has run for Age and then for Sex. */
  function FixedAgeSex(t: Table): (r: Table)
    requires t.Valid()
    ensures r.Valid() && AgeColumn in r.data && SexColumn in r.data
  {
    FixerProvidesAgeAndSex(t);
    Fixed(Fixed(t, AgeColumn, "age", Num(30.0)), SexColumn, "sex", Str("Male"))
  }

  /**
   * Section 0 of `main` and section 1 up to the symptom text: the fixer, Age and
   * Sex cleaning, the season and the lower-cased symptoms; a KeyError when the
   * date or symptoms column is missing.
   */
  function Prepared(t: Table, monthOf: Cell -> Option<int>, parse: string -> Option<real>): (r: Result<Table, Error>)
    requires t.Valid()
    ensures r.Ok? ==> r.value.Valid() && r.value.rows == t.rows && SexColumn in r.value.data && SymptomsColumn in r.value.data
    ensures r.Err? ==> r.error.KeyError?
  {
    var fixed := FixedAgeSex(t);
    var aged := fixed.With(AgeColumn, AgeCells(fixed.data[AgeColumn], parse));
    var sexed := aged.With(SexColumn, SexCells(aged.data[SexColumn]));
    if DateColumn !in sexed.data then Err(KeyError([DateColumn]))
    else
      var seasoned := sexed.With(SeasonColumn, SeasonCells(sexed.data[DateColumn], monthOf));
      if SymptomsColumn !in seasoned.data then Err(KeyError([SymptomsColumn]))
      else Ok(seasoned.With(SymptomsColumn, SymptomCells(seasoned.data[SymptomsColumn])))
  }

  /**
   * Sections 0 and 1 of `main` on a loaded table: `Prepared`, then the symptom
   * flags and Sex_Code.
   */
  function Cleaning(t: Table, monthOf: Cell -> Option<int>, parse: string -> Option<real>): (r: Result<Table, Error>)
    requires t.Valid()
    ensures r.Ok? ==> r.value.Valid() && r.value.rows == t.rows
    ensures r.Err? ==> r.error.KeyError?
  {
    match Prepared(t, monthOf, parse)
    case Err(e) => Err(e)
    case Ok(p) =>
      NotFlags();
      var flagged := WithFlags(p, FlagColumns, SymptomKeywords, |SymptomKeywords|);
      Ok(flagged.With(SexCodeColumn, SexCodeCells(flagged.data[SexColumn])))
  }

  /** The columns cleaning writes. */
  const CleanedNames := [AgeColumn, SexColumn, SeasonColumn, SymptomsColumn, SexCodeColumn] + FlagColumns

  /** Cleaning fails, with a KeyError, exactly when the fixed table has no date or no symptoms column. */
  lemma CleaningFails(t: Table, monthOf: Cell -> Option<int>, parse: string -> Option<real>)
    requires t.Valid()
    ensures Cleaning(t, monthOf, parse).Err? <==>
      DateColumn !in FixedAgeSex(t).data || SymptomsColumn !in FixedAgeSex(t).data
  {
  }

  /**
   * What the first steps establish: Age, Sex, Season_Risk and Symptoms are the
   * cleaned forms of the fixed table's columns, and every other column is kept.
   */
  lemma PreparedColumns(t: Table, monthOf: Cell -> Option<int>, parse: string -> Option<real>)
    requires t.Valid() && Prepared(t, monthOf, parse).Ok?
    ensures var fixed, p := FixedAgeSex(t), Prepared(t, monthOf, parse).value;
      && DateColumn in fixed.data && SymptomsColumn in fixed.data
      && p.data[AgeColumn] == AgeCells(fixed.data[AgeColumn], parse)
      && p.data[SexColumn] == SexCells(fixed.data[SexColumn])
      && p.data[SeasonColumn] == SeasonCells(fixed.data[DateColumn], monthOf)
      && p.data[SymptomsColumn] == SymptomCells(fixed.data[SymptomsColumn])
      && (forall n :: n in fixed.data && n !in CleanedNames ==> p.data[n] == fixed.data[n])
  {
  }

  /**
   * What the flags and Sex_Code add to the prepared table: Sex_Code derived from
   * the cleaned Sex, no other new column, and every column that is neither a flag
   * nor Sex_Code kept as it was.
   */
  lemma CleaningColumns(t: Table, monthOf: Cell -> Option<int>, parse: string -> Option<real>)
    requires t.Valid() && Cleaning(t, monthOf, parse).Ok?
    ensures var p, c := Prepared(t, monthOf, parse).value, Cleaning(t, monthOf, parse).value;
      && (forall n :: n in p.data && n !in FlagColumns && n != SexCodeColumn ==> n in c.data && c.data[n] == p.data[n])
      && (forall n :: n in c.data ==> n in p.data || n in FlagColumns || n == SexCodeColumn)
      && SexColumn in c.data && SexCodeColumn in c.data && c.data[SexCodeColumn] == SexCodeCells(c.data[SexColumn])
  {
    var p := Prepared(t, monthOf, parse).value;
    NotFlags();
    WithFlagsKeeps(p, FlagColumns, SymptomKeywords, |SymptomKeywords|);
  }

  /** Each flag column of the cleaned table is computed from its cleaned Symptoms column. */
  lemma CleaningFlags(t: Table, monthOf: Cell -> Option<int>, parse: string -> Option<real>)
    requires t.Valid() && Cleaning(t, monthOf, parse).Ok?
    ensures var c := Cleaning(t, monthOf, parse).value;
      forall i :: 0 <= i < |FlagColumns| ==>
        FlagColumns[i] in c.data && c.data[FlagColumns[i]] == FlagCells(c.data[SymptomsColumn], SymptomKeywords[i])
  {
    var p := Prepared(t, monthOf, parse).value;
    NotFlags();
    FlagColumnsFresh();
    WithFlagsAdds(p, FlagColumns, SymptomKeywords, |SymptomKeywords|);
  }

  /** The loop over `symptom_keywords`: one flag column per keyword, in keyword order. */
  method AddFlags(df: DataFrame)
    requires df.Valid() && SymptomsColumn in df.data
    modifies df
    ensures df.Valid() && df.Snapshot() == WithFlags(old(df.Snapshot()), FlagColumns, SymptomKeywords, |SymptomKeywords|)
  {
    NotFlags();
    ghost var before := df.Snapshot();
    for j := 0 to |SymptomKeywords|
      invariant df.Valid() && df.Snapshot() == WithFlags(before, FlagColumns, SymptomKeywords, j)
    {
      var k := SymptomKeywords[j];
      FlagNameOf(j);
      df.Assign(FlagName(k), FlagCells(df.data[SymptomsColumn], k));
    }
  }

  /** Sections 0 and 1 of `main`, changing the DataFrame in place. */
  method CleanTable(df: DataFrame, monthOf: Cell -> Option<int>, parse: string -> Option<real>)
    returns (err: Option<Error>)
    requires df.Valid()
    modifies df
    ensures df.Valid()
    ensures match Cleaning(old(df.Snapshot()), monthOf, parse)
      case Ok(t) => err.None? && df.Snapshot() == t
      case Err(e) => err == Some(e)
  {
    // 0. smart column fixer
    FixColumn(df, AgeColumn, "age", Num(30.0));
    FixColumn(df, SexColumn, "sex", Str("Male"));
    FixerProvidesAgeAndSex(old(df.Snapshot()));

    // 1. data cleaning
    df.Assign(AgeColumn, AgeCells(df.data[AgeColumn], parse));
    df.Assign(SexColumn, SexCells(df.data[SexColumn]));
    if DateColumn !in df.data {
      return Some(KeyError([DateColumn]));
    }
    df.Assign(SeasonColumn, SeasonCells(df.data[DateColumn], monthOf));
    if SymptomsColumn !in df.data {
      return Some(KeyError([SymptomsColumn]));
    }
    df.Assign(SymptomsColumn, SymptomCells(df.data[SymptomsColumn]));
    AddFlags(df);
    df.Assign(SexCodeColumn, SexCodeCells(df.data[SexColumn]));
    return None;
  }

  // ---------------------------------------------------------------- main, sections 2 and 3

  /** Section 2 of `main`: the Dengue_Label column, or the error the comparisons raise. */
  function Labelled(c: Table): (r: Result<Table, Error>)
    requires c.Valid()
    ensures r.Ok? ==> r.value.Valid() && r.value.rows == c.rows && PlateletColumn in r.value.data && LabelColumn in r.value.data
    ensures r.Err? <==> LabError(c).Some?
  {
    match LabError(c)
    case Some(e) => Err(e)
    case None => Ok(c.With(LabelColumn, LabelCells(c.data[PlateletColumn], c.data[HematocritColumn], c.data[HaemoglobinColumn])))
  }

  /**
   * The random draws fit the table: one of each per row, with every volatility in
   * [0.10, 0.25], the range `np.random.uniform` draws it from.
   */
  predicate DrawsFit(draws: Draws, rows: nat) {
    && |draws.recovering| == rows && |draws.volatility| == rows && |draws.noise| == rows
    && forall i :: 0 <= i < rows ==> 0.10 <= draws.volatility[i] <= 0.25
  }

  /** Section 3 of `main` up to the feature selection: the synthetic platelet trajectory. */
  function Forecasting(t: Table, draws: Draws): (r: Table)
    requires t.Valid() && PlateletColumn in t.data && DrawsFit(draws, t.rows)
    ensures r.Valid() && r.rows == t.rows
  {
    var d2 := t.With(Day2Column, t.data[PlateletColumn]);
    var rec := d2.With(RecoveringColumn, RecoveringCells(draws.recovering));
    var d1 := rec.With(Day1Column, Day1Cells(rec.data[Day2Column], draws));
    var de := d1.With(DeltaColumn, DeltaCells(d1.data[Day2Column], d1.data[Day1Column]));
    de.With(Day3Column, Day3Cells(de.data[Day2Column], de.data[DeltaColumn], draws.noise))
  }

  /** The columns the forecast section writes. */
  const ForecastNames := [Day2Column, RecoveringColumn, Day1Column, DeltaColumn, Day3Column]

  /**
   * Day2_Platelets is a copy of the platelet column, each other trajectory column
   * is computed from the ones before it, and every other column is kept.
   */
  lemma ForecastingColumns(t: Table, draws: Draws)
    requires t.Valid() && PlateletColumn in t.data && DrawsFit(draws, t.rows)
    ensures var r := Forecasting(t, draws);
      && (forall n :: n in ForecastNames ==> n in r.data)
      && r.data[Day2Column] == t.data[PlateletColumn]
      && r.data[RecoveringColumn] == RecoveringCells(draws.recovering)
      && r.data[Day1Column] == Day1Cells(r.data[Day2Column], draws)
      && r.data[DeltaColumn] == DeltaCells(r.data[Day2Column], r.data[Day1Column])
      && r.data[Day3Column] == Day3Cells(r.data[Day2Column], r.data[DeltaColumn], draws.noise)
      && (forall n :: n in t.data && n !in ForecastNames ==> n in r.data && r.data[n] == t.data[n])
  {
  }

  /** What `main` runs on a loaded table, up to the model fitting: sections 0 to 3. */
  function Training(t: Table, monthOf: Cell -> Option<int>, parse: string -> Option<real>, draws: Draws): (r: Result<TrainingData, Error>)
    requires t.Valid() && DrawsFit(draws, t.rows)
    ensures Cleaning(t, monthOf, parse).Err? ==> r == Err(Cleaning(t, monthOf, parse).error)
    ensures r.Ok? ==>
      && |r.value.xClf| == |ClfFeatures| && |r.value.yClf| == t.rows
      && |r.value.xReg| == |RegFeatures| && |r.value.yReg| == t.rows
  {
    match Cleaning(t, monthOf, parse)
    case Err(e) => Err(e)
    case Ok(c) =>
      match Labelled(c)
      case Err(e) => Err(e)
      case Ok(l) =>
        match Matrix(l, ClfFeatures)
        case Err(missing) => Err(KeyError(missing))
        case Ok(xClf) =>
          var f := Forecasting(l, draws);
          match Matrix(f, RegFeatures)
          case Err(missing) => Err(KeyError(missing))
          case Ok(xReg) => Ok(TrainingData(xClf, l.data[LabelColumn], xReg, f.data[Day3Column]))
  }

  /** The label column is the synthetic label of each row's readings; every other column is kept. */
  lemma LabelledColumns(c: Table)
    requires c.Valid() && Labelled(c).Ok?
    ensures var l := Labelled(c).value;
      && PlateletColumn in c.data && HematocritColumn in c.data && HaemoglobinColumn in c.data
      && Comparable(c.data[PlateletColumn])
      && l.data[LabelColumn] == LabelCells(c.data[PlateletColumn], c.data[HematocritColumn], c.data[HaemoglobinColumn])
      && (forall n :: n in c.data && n != LabelColumn ==> n in l.data && l.data[n] == c.data[n])
  {
  }

  /** Helper: a successful run has passed every step, and its result is made of theirs. */
  lemma TrainingSteps(t: Table, monthOf: Cell -> Option<int>, parse: string -> Option<real>, draws: Draws)
    requires t.Valid() && DrawsFit(draws, t.rows) && Training(t, monthOf, parse, draws).Ok?
    ensures Cleaning(t, monthOf, parse).Ok? && Labelled(Cleaning(t, monthOf, parse).value).Ok?
    ensures var l := Labelled(Cleaning(t, monthOf, parse).value).value;
      var f := Forecasting(l, draws);
      && Matrix(l, ClfFeatures).Ok? && Matrix(f, RegFeatures).Ok?
      && Training(t, monthOf, parse, draws).value ==
         TrainingData(Matrix(l, ClfFeatures).value, l.data[LabelColumn], Matrix(f, RegFeatures).value, f.data[Day3Column])
  {
  }

  /**
   * The risk target is the synthetic label of the cleaned table's readings on
   * every row.
   */
  lemma TrainingLabels(t: Table, monthOf: Cell -> Option<int>, parse: string -> Option<real>, draws: Draws)
    requires t.Valid() && DrawsFit(draws, t.rows) && Training(t, monthOf, parse, draws).Ok?
    ensures var c, d := Cleaning(t, monthOf, parse).value, Training(t, monthOf, parse, draws).value;
      && PlateletColumn in c.data && HematocritColumn in c.data && HaemoglobinColumn in c.data
      && d.yClf == LabelCells(c.data[PlateletColumn], c.data[HematocritColumn], c.data[HaemoglobinColumn])
  {
    TrainingSteps(t, monthOf, parse, draws);
    LabelledColumns(Cleaning(t, monthOf, parse).value);
  }

  /** Zero-filling keeps the Delta identity: NaN in Day2 makes Day1 and Delta NaN too, and 0 = 0 - 0. */
  lemma FilledDelta(day2: Cell, recovering: bool, volatility: real)
    requires !day2.Str? && volatility >= 0.0
    ensures var day1 := Day1Cell(day2, recovering, volatility);
      var a, b, d := FillZeroCell(day1), FillZeroCell(day2), FillZeroCell(Delta(day2, day1));
      a.Num? && b.Num? && d.Num? && d.x == b.x - a.x
  {
  }

  /**
   * In a regression matrix taken from a table whose Day1 and Delta columns are
   * computed as the forecast section computes them, Day2_Platelets is the platelet
   * count (0 where it is NaN) and Delta_Day1_Day2 is Day2 minus Day1 on every row,
   * zero-filling included.
   */
  lemma TrajectoryMatrixDelta(f: Table, platelets: seq<Cell>, draws: Draws)
    requires f.Valid() && Comparable(platelets) && DrawsFit(draws, f.rows)
    requires Day1Column in f.data && Day2Column in f.data && DeltaColumn in f.data
    requires f.data[Day2Column] == platelets
    requires f.data[Day1Column] == Day1Cells(platelets, draws)
    requires f.data[DeltaColumn] == DeltaCells(platelets, f.data[Day1Column])
    requires Matrix(f, RegFeatures).Ok?
    ensures var x := Matrix(f, RegFeatures).value;
      && |x| == |RegFeatures| && |x[0].values| == |x[1].values| == |x[2].values| == f.rows
      && forall k :: 0 <= k < f.rows ==>
           && x[1].values[k] == FillZeroCell(platelets[k])
           && x[0].values[k].Num? && x[1].values[k].Num? && x[2].values[k].Num?
           && x[2].values[k].x == x[1].values[k].x - x[0].values[k].x
  {
    var x := Matrix(f, RegFeatures).value;
    assert RegFeatures[0] == Day1Column && RegFeatures[1] == Day2Column && RegFeatures[2] == DeltaColumn;
    forall k | 0 <= k < f.rows
      ensures x[1].values[k] == FillZeroCell(platelets[k])
      ensures x[0].values[k].Num? && x[1].values[k].Num? && x[2].values[k].Num?
      ensures x[2].values[k].x == x[1].values[k].x - x[0].values[k].x
    {
      FilledDelta(platelets[k], draws.recovering[k], draws.volatility[k]);
    }
  }

  /**
   * In the matrix handed to the regressor, Day2_Platelets is the cleaned platelet
   * count (0 where it is NaN) and Delta_Day1_Day2 is Day2 minus Day1 on every row.
   */
  lemma TrainingDelta(t: Table, monthOf: Cell -> Option<int>, parse: string -> Option<real>, draws: Draws)
    requires t.Valid() && DrawsFit(draws, t.rows) && Training(t, monthOf, parse, draws).Ok?
    ensures var c, d := Cleaning(t, monthOf, parse).value, Training(t, monthOf, parse, draws).value;
      && PlateletColumn in c.data && |d.xReg| == |RegFeatures|
      && |d.xReg[0].values| == |d.xReg[1].values| == |d.xReg[2].values| == t.rows
      && forall k :: 0 <= k < t.rows ==>
           && d.xReg[1].values[k] == FillZeroCell(c.data[PlateletColumn][k])
           && d.xReg[0].values[k].Num? && d.xReg[1].values[k].Num? && d.xReg[2].values[k].Num?
           && d.xReg[2].values[k].x == d.xReg[1].values[k].x - d.xReg[0].values[k].x
  {
    TrainingSteps(t, monthOf, parse, draws);
    var c := Cleaning(t, monthOf, parse).value;
    LabelledColumns(c);
    var l := Labelled(c).value;
    ForecastingColumns(l, draws);
    TrajectoryMatrixDelta(Forecasting(l, draws), l.data[PlateletColumn], draws);
  }

  /** Section 2 of `main` up to the feature selection, in place. */
  method AddLabel(df: DataFrame) returns (err: Option<Error>)
    requires df.Valid()
    modifies df
    ensures df.Valid()
    ensures match Labelled(old(df.Snapshot()))
      case Ok(t) => err.None? && df.Snapshot() == t
      case Err(e) => err == Some(e)
  {
    err := LabError(df.Snapshot());
    if err.None? {
      df.Assign(LabelColumn, LabelCells(df.data[PlateletColumn], df.data[HematocritColumn], df.data[HaemoglobinColumn]));
    }
  }

  /** Section 3 of `main` up to the feature selection, in place. */
  method AddTrajectory(df: DataFrame, draws: Draws)
    requires df.Valid() && PlateletColumn in df.data && DrawsFit(draws, df.rows)
    modifies df
    ensures df.Valid() && df.Snapshot() == Forecasting(old(df.Snapshot()), draws)
  {
    df.Assign(Day2Column, df.data[PlateletColumn]);
    df.Assign(RecoveringColumn, RecoveringCells(draws.recovering));
    df.Assign(Day1Column, Day1Cells(df.data[Day2Column], draws));
    df.Assign(DeltaColumn, DeltaCells(df.data[Day2Column], df.data[Day1Column]));
    df.Assign(Day3Column, Day3Cells(df.data[Day2Column], df.data[DeltaColumn], draws.noise));
  }

  /** `main` without the file reading and the model fitting, changing the DataFrame in place. */
  method Train(df: DataFrame, monthOf: Cell -> Option<int>, parse: string -> Option<real>, draws: Draws)
    returns (r: Result<TrainingData, Error>)
    requires df.Valid() && DrawsFit(draws, df.rows)
    modifies df
    ensures r == Training(old(df.Snapshot()), monthOf, parse, draws)
  {
    var err := CleanTable(df, monthOf, parse);
    if err.Some? {
      return Err(err.value);
    }

    // 2. risk analyzer training
    err := AddLabel(df);
    if err.Some? {
      return Err(err.value);
    }
    var xClf := Matrix(df.Snapshot(), ClfFeatures);
    if xClf.Err? {
      return Err(KeyError(xClf.error));
    }
    var yClf := df.data[LabelColumn];

    // 3. forecast engine training
    AddTrajectory(df, draws);
    var xReg := Matrix(df.Snapshot(), RegFeatures);
    if xReg.Err? {
      return Err(KeyError(xReg.error));
    }
    return Ok(TrainingData(xClf.value, yClf, xReg.value, df.data[Day3Column]));
  }
}
