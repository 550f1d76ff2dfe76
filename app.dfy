/**
 * The deterministic rules of the dashboard `app.py`: the date-to-season score and
 * its display label, the encoding of the patient form, the assembly of the
 * one-row input frame for each view and its alignment to the training feature
 * list, and the status and trend colour shown for a forecast.
 */
module App {
  import opened Results
  import opened Frames
  import Text
  import TrainModel

  // ---------------------------------------------------------------- season

  /** A calendar month, as `date.month` returns it. */
  type Month = m: int | 1 <= m <= 12 witness 1

  /** `get_season_score`: the dashboard's own copy of the month-to-season lookup. */
  function SeasonScore(month: Month): (r: int)
    ensures 0 <= r <= 3
  {
    if month in [12, 1, 2] then 0
    else if month in [3, 4, 5] then 1
    else if month in [6, 7, 8, 9] then 3
    else if month in [10, 11] then 2
    else 0
  }

  /**
   * The dashboard scores every month as training does, so the Season_Risk it feeds
   * the models is the value the models were trained on.
   */
  lemma SeasonScoreAgrees(month: Month)
    ensures SeasonScore(month) == TrainModel.Season(month)
    ensures Num(SeasonScore(month) as real) == TrainModel.SeasonCell(Some(month as int))
  {
  }

  const SeasonNames := ["Winter (Low)", "Summer (Mod)", "Post-Monsoon (Mod)", "Monsoon (High)"]

  /** Python's `xs[i]`: negative indices count from the end, anything else out of range is an IndexError. */
  function PyIndex(xs: seq<string>, i: int): (r: Option<string>)
    ensures r.Some? <==> -|xs| <= i < |xs|
    ensures 0 <= i < |xs| ==> r == Some(xs[i])
  {
    if 0 <= i < |xs| then Some(xs[i])
    else if -|xs| <= i < 0 then Some(xs[|xs| + i])
    else None
  }

  /** The guarded label index `score if score < 3 else 3`. */
  function LabelIndex(score: int): (r: int)
    ensures r <= 3
    ensures 0 <= score ==> 0 <= r < |SeasonNames|
  {
    if score < 3 then score else 3
  }

  /** The caption shown for a season score; `None` stands for the IndexError. */
  function SeasonName(score: int): (r: Option<string>)
    ensures 0 <= score <= 3 ==> r == Some(SeasonNames[score])
    ensures score >= 3 ==> r == Some("Monsoon (High)")
  {
    PyIndex(SeasonNames, LabelIndex(score))
  }

  /**
   * For every month the label index lies within the four names and equals the
   * score, and the label reads "Monsoon (High)" exactly when the score is 3.
   */
  lemma SeasonNameOfMonth(month: Month)
    ensures var s := SeasonScore(month);
      && 0 <= LabelIndex(s) < |SeasonNames| && LabelIndex(s) == s
      && SeasonName(s) == Some(SeasonNames[s])
      && (SeasonName(s) == Some("Monsoon (High)") <==> s == 3)
  {
    var s := SeasonScore(month);
    assert SeasonNames[0] != "Monsoon (High)" && SeasonNames[1] != "Monsoon (High)";
    assert SeasonNames[2] != "Monsoon (High)";
  }

  /**
   * The guard only caps the index from above: any score of 3 or more reads
   * "Monsoon (High)", while a score below -4 would raise an IndexError (and -4 to -1
   * would wrap around). `SeasonScore` never produces a negative score.
   */
  lemma SeasonNameGuard(score: int)
    ensures score >= 3 ==> SeasonName(score) == Some("Monsoon (High)")
    ensures SeasonName(score).Some? <==> score >= -4
  {
  }

  // ---------------------------------------------------------------- patient form

  /** The values `render_patient_inputs` collects from its widgets. */
  datatype Patient = Patient(
    sex: string, age: int, haemoglobin: real, rbc: real, hematocrit: real,
    fever: bool, headache: bool, pain: bool, vomit: bool)

  /** `int(flag)` for a checkbox. */
  function Bit(b: bool): (c: Cell)
    ensures c == Num(1.0) || c == Num(0.0)
    ensures c == Num(1.0) <==> b
  {
    Num(if b then 1.0 else 0.0)
  }

  /** `1 if sex == "Male" else 0` */
  function SexBit(sex: string): (c: Cell)
    ensures c == Num(1.0) || c == Num(0.0)
    ensures c == Num(1.0) <==> sex == "Male"
  {
    Num(if sex == "Male" then 1.0 else 0.0)
  }

  /** The dict `render_patient_inputs` returns, as its items in insertion order. */
  function PatientRecord(p: Patient): (r: seq<(string, Cell)>)
    ensures |r| == 9 && forall i :: 0 <= i < |r| ==> r[i].1.Num?
  {
    [
      (TrainModel.SexCodeColumn, SexBit(p.sex)),
      (TrainModel.HaemoglobinColumn, Num(p.haemoglobin)),
      (TrainModel.HematocritColumn, Num(p.hematocrit)),
      (TrainModel.RbcColumn, Num(p.rbc)),
      (TrainModel.AgeColumn, Num(p.age as real)),
      ("Has_Fever", Bit(p.fever)),
      ("Has_Headache", Bit(p.headache)),
      ("Has_Pain", Bit(p.pain)),
      ("Has_Vomit", Bit(p.vomit))
    ]
  }

  /**
   * The form's Sex_Code agrees with training's cleaning and coding of a Sex cell
   * holding the same selection, for both choices the form offers.
   */
  lemma SexBitAgrees(sex: string)
    requires sex == "Male" || sex == "Female"
    ensures SexBit(sex) == TrainModel.SexCode(TrainModel.CleanSex(Str(sex)))
  {
    SelectionStripped(sex);
    var lowered := Text.Lower(Text.Strip(sex));
    assert lowered == "male" <==> sex == "Male" by {
      if sex == "Male" {
        assert Text.Lower("Male") == "male";
      } else {
        assert |lowered| == 6;
      }
    }
    TrainModel.SexCodeIsCaseInsensitiveMale(Str(sex));
  }

  /** The form's two choices carry no white space to strip. */
  lemma SelectionStripped(sex: string)
    requires sex == "Male" || sex == "Female"
    ensures Text.Strip(sex) == sex
  {
    assert forall i :: 0 <= i < |sex| ==> Text.IsCased(sex[i]);
    forall i | 0 <= i < |sex| ensures !Text.IsSpace(sex[i]) {
      Text.CasedIsNoSpace(sex[i]);
    }
    Text.StripWithoutSpaces(sex);
  }

  // ---------------------------------------------------------------- alignment

  /**
   * The frame after `for col in features: if col not in input_df.columns:
   * input_df[col] = 0`: each listed name without a column gains a column of zeros.
   */
  function ZeroFilled(t: Table, features: seq<string>): (r: Table)
    requires t.Valid()
    ensures r.Valid() && r.rows == t.rows
  {
    if features == [] then t
    else
      var u := ZeroFilled(t, features[..|features| - 1]);
      var n := features[|features| - 1];
      if n in u.data then u else u.With(n, Fill(u.rows, Num(0.0)))
  }

  /** The zero-fill loop adds exactly the missing listed names, as zeros, and changes no existing column. */
  lemma {:induction false} ZeroFilledColumns(t: Table, features: seq<string>)
    requires t.Valid()
    ensures var r := ZeroFilled(t, features);
      && (forall n :: n in r.data <==> n in t.data || n in features)
      && (forall n :: n in t.data ==> r.data[n] == t.data[n])
      && (forall n :: n in r.data && n !in t.data ==> r.data[n] == Fill(t.rows, Num(0.0)))
  {
    if features != [] {
      var init := features[..|features| - 1];
      ZeroFilledColumns(t, init);
      assert features == init + [features[|features| - 1]];
    }
  }

  /**
   * The aligned vector, defined directly: for each listed name in list order, its
   * column if the frame has it, zeros otherwise.
   */
  function Aligned(t: Table, features: seq<string>): (x: seq<Column>)
    requires t.Valid()
    ensures |x| == |features|
    ensures forall i :: 0 <= i < |features| ==> x[i].name == features[i] && |x[i].values| == t.rows
    ensures forall i :: 0 <= i < |features| && features[i] in t.data ==> x[i].values == t.data[features[i]]
    ensures forall i, k :: 0 <= i < |features| && features[i] !in t.data && 0 <= k < t.rows ==>
      x[i].values[k] == Num(0.0)
  {
    seq(|features|, i requires 0 <= i < |features| =>
      Column(features[i], if features[i] in t.data then t.data[features[i]] else Fill(t.rows, Num(0.0))))
  }

  /** Selecting the feature list after the zero-fill loop never raises and yields the aligned vector. */
  lemma AlignedBySelect(t: Table, features: seq<string>)
    requires t.Valid()
    ensures Select(ZeroFilled(t, features), features) == Ok(Aligned(t, features))
  {
    var r := ZeroFilled(t, features);
    ZeroFilledColumns(t, features);
    var s := Select(r, features);
    assert s.Ok?;
    var x := Aligned(t, features);
    forall i | 0 <= i < |features| ensures s.value[i] == x[i] {
      if features[i] !in t.data {
        assert r.data[features[i]] == Fill(t.rows, Num(0.0)) == x[i].values;
      }
    }
    assert s.value == x;
  }

  /**
   * Aligning a dict's table to a list that names only its keys takes each listed
   * key's value; `perm[j]` is the position of the j-th listed name among the items.
   */
  lemma AlignedRecord(record: seq<(string, Cell)>, features: seq<string>, perm: seq<nat>)
    requires DistinctKeys(record) && |perm| == |features|
    requires forall j :: 0 <= j < |features| ==> perm[j] < |record| && record[perm[j]].0 == features[j]
    ensures forall j :: 0 <= j < |features| ==>
      Aligned(RecordTable(record), features)[j] == Column(features[j], [record[perm[j]].1])
  {
    RecordTableColumns(record);
    forall j | 0 <= j < |features|
      ensures Aligned(RecordTable(record), features)[j] == Column(features[j], [record[perm[j]].1])
    {
      assert record[perm[j]].0 in RecordTable(record).data;
    }
  }

  /**
   * A dict's table has a column for exactly the listed names when each listed name
   * is a key (`perm`) and each key is listed (`inv`).
   */
  lemma RecordCovers(record: seq<(string, Cell)>, features: seq<string>, perm: seq<nat>, inv: seq<nat>)
    requires DistinctKeys(record) && |perm| == |features| && |inv| == |record|
    requires forall j :: 0 <= j < |features| ==> perm[j] < |record| && record[perm[j]].0 == features[j]
    requires forall i :: 0 <= i < |record| ==> inv[i] < |features| && features[inv[i]] == record[i].0
    ensures forall n :: n in RecordTable(record).data <==> n in features
  {
    RecordTableColumns(record);
    RecordTableNames(record);
    forall n | n in RecordTable(record).data ensures n in features {
      var i :| 0 <= i < |record| && Keys(record)[i] == n;
      assert features[inv[i]] == n;
    }
    forall n | n in features ensures n in RecordTable(record).data {
      var j :| 0 <= j < |features| && features[j] == n;
      assert record[perm[j]].0 == n;
    }
  }

  /** The zero-fill loop and `input_df[features]`, run on the frame in place. */
  method AlignTo(df: DataFrame, features: seq<string>) returns (x: seq<Column>)
    requires df.Valid()
    modifies df
    ensures df.Valid() && df.Snapshot() == ZeroFilled(old(df.Snapshot()), features)
    ensures x == Aligned(old(df.Snapshot()), features)
  {
    ghost var before := df.Snapshot();
    for j := 0 to |features|
      invariant df.Valid() && df.Snapshot() == ZeroFilled(before, features[..j])
    {
      assert features[..j + 1][..j] == features[..j];
      if features[j] !in df.data {
        df.Assign(features[j], Fill(df.rows, Num(0.0)));
      }
    }
    assert features[..|features|] == features;
    AlignedBySelect(before, features);
    var selected := Select(df.Snapshot(), features);
    x := selected.value;
  }

  // ---------------------------------------------------------------- risk view

  /** The risk view's frame as one dict: the form, then the platelet count and the season score. */
  function RiskRecord(p: Patient, platelets: int, season: int): (r: seq<(string, Cell)>)
    ensures |r| == 11 && forall i :: 0 <= i < |r| ==> r[i].1.Num?
  {
    PatientRecord(p) + [
      (TrainModel.PlateletColumn, Num(platelets as real)),
      (TrainModel.SeasonColumn, Num(season as real))
    ]
  }

  lemma RiskKeysDistinct(p: Patient, platelets: int, season: int)
    ensures DistinctKeys(RiskRecord(p, platelets, season))
  {
    var r := RiskRecord(p, platelets, season);
    var lengths := [8, 19, 35, 37, 3, 9, 12, 8, 9, 22, 11];
    assert forall i :: 0 <= i < |r| ==> |r[i].0| == lengths[i];
    assert r[0].0[0] != r[7].0[0];
    assert r[5].0[4] != r[8].0[4];
  }

  /** Adding the platelet count and the season to the form's frame gives the risk dict's frame. */
  lemma RiskRecordBuilt(p: Patient, platelets: int, season: int)
    ensures RecordTable(RiskRecord(p, platelets, season)) ==
      RecordTable(PatientRecord(p))
        .With(TrainModel.PlateletColumn, [Num(platelets as real)])
        .With(TrainModel.SeasonColumn, [Num(season as real)])
  {
    var form := PatientRecord(p);
    var plt := (TrainModel.PlateletColumn, Num(platelets as real));
    var score := (TrainModel.SeasonColumn, Num(season as real));
    RecordTableAppend(form, plt.0, plt.1);
    RecordTableAppend(form + [plt], score.0, score.1);
    assert form + [plt] + [score] == RiskRecord(p, platelets, season);
  }

  /** The risk view's input assembly: `input_df` built from the form, extended, aligned to `features`. */
  method RiskVector(p: Patient, platelets: int, month: Month, features: seq<string>) returns (x: seq<Column>)
    ensures x == Aligned(RecordTable(RiskRecord(p, platelets, SeasonScore(month))), features)
  {
    var df := new DataFrame(RecordTable(PatientRecord(p)));
    df.Assign(TrainModel.PlateletColumn, Fill(df.rows, Num(platelets as real)));
    df.Assign(TrainModel.SeasonColumn, Fill(df.rows, Num(SeasonScore(month) as real)));
    FillOne(Num(platelets as real));
    FillOne(Num(SeasonScore(month) as real));
    RiskRecordBuilt(p, platelets, SeasonScore(month));
    x := AlignTo(df, features);
  }

  /** Where each classifier feature sits in the risk dict, and where each risk key sits in the feature list. */
  const RiskOrder: seq<nat> := [9, 1, 3, 2, 4, 0, 5, 6, 7, 8, 10]
  const RiskPlaces: seq<nat> := [5, 1, 3, 2, 4, 6, 7, 8, 9, 0, 10]

  lemma RiskOrderMatches(p: Patient, platelets: int, season: int)
    ensures var r := RiskRecord(p, platelets, season);
      && |RiskOrder| == |TrainModel.ClfFeatures| && |RiskPlaces| == |r|
      && (forall j :: 0 <= j < |TrainModel.ClfFeatures| ==> RiskOrder[j] < |r| && r[RiskOrder[j]].0 == TrainModel.ClfFeatures[j])
      && (forall i :: 0 <= i < |r| ==> RiskPlaces[i] < |TrainModel.ClfFeatures| && TrainModel.ClfFeatures[RiskPlaces[i]] == r[i].0)
  {
  }

  /** Each entry of the classifier's vector is the risk dict's value for that feature. */
  lemma RiskPicked(p: Patient, platelets: int, season: int)
    ensures var r := RiskRecord(p, platelets, season);
      forall j :: 0 <= j < |TrainModel.ClfFeatures| ==>
        Aligned(RecordTable(r), TrainModel.ClfFeatures)[j] == Column(TrainModel.ClfFeatures[j], [r[RiskOrder[j]].1])
  {
    RiskKeysDistinct(p, platelets, season);
    RiskOrderMatches(p, platelets, season);
    AlignedRecord(RiskRecord(p, platelets, season), TrainModel.ClfFeatures, RiskOrder);
  }

  /**
   * The risk frame supplies exactly the classifier's features: no name is
   * zero-filled and no supplied value is dropped.
   */
  lemma RiskCoverage(p: Patient, platelets: int, season: int)
    ensures forall n :: n in RecordTable(RiskRecord(p, platelets, season)).data <==> n in TrainModel.ClfFeatures
  {
    RiskKeysDistinct(p, platelets, season);
    RiskOrderMatches(p, platelets, season);
    RecordCovers(RiskRecord(p, platelets, season), TrainModel.ClfFeatures, RiskOrder, RiskPlaces);
  }

  /** The vector handed to the classifier starts with the platelet count, the form's lab values and age. */
  lemma RiskAlignedLabs(p: Patient, platelets: int, season: int)
    ensures Aligned(RecordTable(RiskRecord(p, platelets, season)), TrainModel.ClfFeatures)[..5] == [
      Column(TrainModel.PlateletColumn, [Num(platelets as real)]),
      Column(TrainModel.HaemoglobinColumn, [Num(p.haemoglobin)]),
      Column(TrainModel.RbcColumn, [Num(p.rbc)]),
      Column(TrainModel.HematocritColumn, [Num(p.hematocrit)]),
      Column(TrainModel.AgeColumn, [Num(p.age as real)])
    ]
  {
    RiskPicked(p, platelets, season);
  }

  /** ... and goes on with the sex code, the four symptom checkboxes and the season score. */
  lemma RiskAlignedFlags(p: Patient, platelets: int, season: int)
    ensures Aligned(RecordTable(RiskRecord(p, platelets, season)), TrainModel.ClfFeatures)[5..] == [
      Column(TrainModel.SexCodeColumn, [SexBit(p.sex)]),
      Column("Has_Fever", [Bit(p.fever)]),
      Column("Has_Headache", [Bit(p.headache)]),
      Column("Has_Pain", [Bit(p.pain)]),
      Column("Has_Vomit", [Bit(p.vomit)]),
      Column(TrainModel.SeasonColumn, [Num(season as real)])
    ]
  {
    RiskPicked(p, platelets, season);
  }

  // ---------------------------------------------------------------- forecast view

  /** `velocity = day1 - day0` */
  function Velocity(day0: int, day1: int): (v: int)
    ensures day0 + v == day1
  {
    day1 - day0
  }

  /**
   * The forecast view's frame as one dict: the form, then yesterday's and today's
   * counts, the velocity and the season score.
   */
  function ForecastRecord(p: Patient, day0: int, day1: int, season: int): (r: seq<(string, Cell)>)
    ensures |r| == 13 && forall i :: 0 <= i < |r| ==> r[i].1.Num?
  {
    PatientRecord(p) + [
      (TrainModel.Day1Column, Num(day0 as real)),
      (TrainModel.Day2Column, Num(day1 as real)),
      (TrainModel.DeltaColumn, Num(Velocity(day0, day1) as real)),
      (TrainModel.SeasonColumn, Num(season as real))
    ]
  }

  lemma ForecastKeysDistinct(p: Patient, day0: int, day1: int, season: int)
    ensures DistinctKeys(ForecastRecord(p, day0, day1, season))
  {
    var r := ForecastRecord(p, day0, day1, season);
    var lengths := [8, 19, 35, 37, 3, 9, 12, 8, 9, 14, 14, 15, 11];
    assert forall i :: 0 <= i < |r| ==> |r[i].0| == lengths[i];
    assert r[0].0[0] != r[7].0[0];
    assert r[5].0[4] != r[8].0[4];
    assert r[9].0[3] != r[10].0[3];
  }

  /** Adding the two counts, the velocity and the season to the form's frame gives the forecast dict's frame. */
  lemma ForecastRecordBuilt(p: Patient, day0: int, day1: int, season: int)
    ensures RecordTable(ForecastRecord(p, day0, day1, season)) ==
      RecordTable(PatientRecord(p))
        .With(TrainModel.Day1Column, [Num(day0 as real)])
        .With(TrainModel.Day2Column, [Num(day1 as real)])
        .With(TrainModel.DeltaColumn, [Num(Velocity(day0, day1) as real)])
        .With(TrainModel.SeasonColumn, [Num(season as real)])
  {
    var form := PatientRecord(p);
    var d1 := (TrainModel.Day1Column, Num(day0 as real));
    var d2 := (TrainModel.Day2Column, Num(day1 as real));
    var delta := (TrainModel.DeltaColumn, Num(Velocity(day0, day1) as real));
    var score := (TrainModel.SeasonColumn, Num(season as real));
    var with1 := form + [d1];
    var with2 := with1 + [d2];
    var with3 := with2 + [delta];
    RecordTableAppend(form, d1.0, d1.1);
    RecordTableAppend(with1, d2.0, d2.1);
    RecordTableAppend(with2, delta.0, delta.1);
    RecordTableAppend(with3, score.0, score.1);
    assert with3 + [score] == ForecastRecord(p, day0, day1, season);
  }

  /** The forecast view's input assembly: `input_df` built from the form, extended, aligned to `features`. */
  method ForecastVector(p: Patient, day0: int, day1: int, month: Month, features: seq<string>) returns (x: seq<Column>)
    ensures x == Aligned(RecordTable(ForecastRecord(p, day0, day1, SeasonScore(month))), features)
  {
    var df := new DataFrame(RecordTable(PatientRecord(p)));
    var velocity := Velocity(day0, day1);
    ghost var t := df.Snapshot();
    df.Assign(TrainModel.Day1Column, Fill(df.rows, Num(day0 as real)));
    FillOne(Num(day0 as real));
    t := t.With(TrainModel.Day1Column, [Num(day0 as real)]);
    assert df.Snapshot() == t;
    df.Assign(TrainModel.Day2Column, Fill(df.rows, Num(day1 as real)));
    FillOne(Num(day1 as real));
    t := t.With(TrainModel.Day2Column, [Num(day1 as real)]);
    assert df.Snapshot() == t;
    df.Assign(TrainModel.DeltaColumn, Fill(df.rows, Num(velocity as real)));
    FillOne(Num(velocity as real));
    t := t.With(TrainModel.DeltaColumn, [Num(velocity as real)]);
    assert df.Snapshot() == t;
    df.Assign(TrainModel.SeasonColumn, Fill(df.rows, Num(SeasonScore(month) as real)));
    FillOne(Num(SeasonScore(month) as real));
    t := t.With(TrainModel.SeasonColumn, [Num(SeasonScore(month) as real)]);
    assert df.Snapshot() == t;
    ForecastRecordBuilt(p, day0, day1, SeasonScore(month));
    ghost var built := RecordTable(ForecastRecord(p, day0, day1, SeasonScore(month)));
    assert df.Snapshot() == built;
    x := AlignTo(df, features);
  }

  /** Where each regressor feature sits in the forecast dict, and where each forecast key sits in the feature list. */
  const ForecastOrder: seq<nat> := [9, 10, 11, 1, 3, 2, 4, 0, 5, 8, 7, 6, 12]
  const ForecastPlaces: seq<nat> := [7, 3, 5, 4, 6, 8, 11, 10, 9, 0, 1, 2, 12]

  lemma ForecastOrderMatches(p: Patient, day0: int, day1: int, season: int)
    ensures var r := ForecastRecord(p, day0, day1, season);
      && |ForecastOrder| == |TrainModel.RegFeatures| && |ForecastPlaces| == |r|
      && (forall j :: 0 <= j < |TrainModel.RegFeatures| ==>
            ForecastOrder[j] < |r| && r[ForecastOrder[j]].0 == TrainModel.RegFeatures[j])
      && (forall i :: 0 <= i < |r| ==>
            ForecastPlaces[i] < |TrainModel.RegFeatures| && TrainModel.RegFeatures[ForecastPlaces[i]] == r[i].0)
  {
  }

  /**
   * The forecast frame supplies exactly the regressor's features: no name is
   * zero-filled and no supplied value is dropped.
   */
  lemma ForecastCoverage(p: Patient, day0: int, day1: int, season: int)
    ensures forall n :: n in RecordTable(ForecastRecord(p, day0, day1, season)).data <==> n in TrainModel.RegFeatures
  {
    ForecastKeysDistinct(p, day0, day1, season);
    ForecastOrderMatches(p, day0, day1, season);
    RecordCovers(ForecastRecord(p, day0, day1, season), TrainModel.RegFeatures, ForecastOrder, ForecastPlaces);
  }

  /** Each entry of the regressor's vector is the forecast dict's value for that feature. */
  lemma ForecastPicked(p: Patient, day0: int, day1: int, season: int)
    ensures var r := ForecastRecord(p, day0, day1, season);
      forall j :: 0 <= j < |TrainModel.RegFeatures| ==>
        Aligned(RecordTable(r), TrainModel.RegFeatures)[j] == Column(TrainModel.RegFeatures[j], [r[ForecastOrder[j]].1])
  {
    ForecastKeysDistinct(p, day0, day1, season);
    ForecastOrderMatches(p, day0, day1, season);
    AlignedRecord(ForecastRecord(p, day0, day1, season), TrainModel.RegFeatures, ForecastOrder);
  }

  /**
   * The vector handed to the regressor starts with yesterday's count, today's
   * count and the velocity, and ends with the season score.
   */
  lemma ForecastAlignedCounts(p: Patient, day0: int, day1: int, season: int)
    ensures var x := Aligned(RecordTable(ForecastRecord(p, day0, day1, season)), TrainModel.RegFeatures);
      && x[..3] == [
        Column(TrainModel.Day1Column, [Num(day0 as real)]),
        Column(TrainModel.Day2Column, [Num(day1 as real)]),
        Column(TrainModel.DeltaColumn, [Num(Velocity(day0, day1) as real)])
      ]
      && x[12] == Column(TrainModel.SeasonColumn, [Num(season as real)])
  {
    ForecastPicked(p, day0, day1, season);
  }

  /** Between them come the form's lab values and age, unchanged. */
  lemma ForecastAlignedLabs(p: Patient, day0: int, day1: int, season: int)
    ensures Aligned(RecordTable(ForecastRecord(p, day0, day1, season)), TrainModel.RegFeatures)[3..7] == [
      Column(TrainModel.HaemoglobinColumn, [Num(p.haemoglobin)]),
      Column(TrainModel.RbcColumn, [Num(p.rbc)]),
      Column(TrainModel.HematocritColumn, [Num(p.hematocrit)]),
      Column(TrainModel.AgeColumn, [Num(p.age as real)])
    ]
  {
    ForecastPicked(p, day0, day1, season);
  }

  /** ... then the sex code and the four symptom checkboxes, in the regressor's flag order. */
  lemma ForecastAlignedFlags(p: Patient, day0: int, day1: int, season: int)
    ensures Aligned(RecordTable(ForecastRecord(p, day0, day1, season)), TrainModel.RegFeatures)[7..12] == [
      Column(TrainModel.SexCodeColumn, [SexBit(p.sex)]),
      Column("Has_Fever", [Bit(p.fever)]),
      Column("Has_Vomit", [Bit(p.vomit)]),
      Column("Has_Pain", [Bit(p.pain)]),
      Column("Has_Headache", [Bit(p.headache)])
    ]
  {
    ForecastPicked(p, day0, day1, season);
  }

  /**
   * In the forecast vector, Delta_Day1_Day2 is Day2_Platelets minus
   * Day1_Platelets by training's own definition of the column.
   */
  lemma ForecastDeltaAgrees(p: Patient, day0: int, day1: int, season: int)
    ensures var x := Aligned(RecordTable(ForecastRecord(p, day0, day1, season)), TrainModel.RegFeatures);
      x[2].values[0] == TrainModel.Delta(x[1].values[0], x[0].values[0])
  {
    ForecastAlignedCounts(p, day0, day1, season);
  }

  // ---------------------------------------------------------------- forecast status

  datatype Status = Critical | Declining | Recovering

  /** The message shown for a predicted count, given today's count. */
  function ForecastStatus(predicted: real, day1: int): Status {
    if predicted < 20000.0 then Critical
    else if predicted < day1 as real then Declining
    else Recovering
  }

  /** Exactly one status holds, each on its own range of predictions. */
  lemma StatusCases(predicted: real, day1: int)
    ensures ForecastStatus(predicted, day1) == Critical <==> predicted < 20000.0
    ensures ForecastStatus(predicted, day1) == Declining <==> 20000.0 <= predicted < day1 as real
    ensures ForecastStatus(predicted, day1) == Recovering <==> 20000.0 <= predicted && day1 as real <= predicted
  {
  }

  const Red := "#FF4B4B"
  const Green := "#09AB3B"

  /** The colour of the trajectory line. */
  function TrendColour(predicted: real, day1: int): string {
    if predicted < day1 as real then Red else Green
  }

  /**
   * The line is red exactly when the prediction falls below today's count; it
   * follows Declining and Recovering, but a Critical prediction can be either colour.
   */
  lemma TrendColourRule(predicted: real, day1: int)
    ensures TrendColour(predicted, day1) == Red <==> predicted < day1 as real
    ensures TrendColour(predicted, day1) == Green <==> day1 as real <= predicted
    ensures ForecastStatus(predicted, day1) == Declining ==> TrendColour(predicted, day1) == Red
    ensures ForecastStatus(predicted, day1) == Recovering ==> TrendColour(predicted, day1) == Green
  {
  }

  /** A Critical prediction above a still lower count is drawn green. */
  lemma CriticalCanBeGreen()
    ensures ForecastStatus(15000.0, 10000) == Critical && TrendColour(15000.0, 10000) == Green
  {
  }
}
