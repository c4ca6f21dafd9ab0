/** The row handed to the classifier: a record with one field per column, and
    the dictionary the source builds from it. */
module Row {
  import opened Tables

  /** One row of the classifier's input; each field is named after its column. */
  datatype FeatureRecord = FeatureRecord(
    Gender: string,
    Age: int,
    Height: real,
    Weight: real,
    family_history: string,
    FAVC: string,
    FCVC: int,
    NCP: int,
    CAEC: string,
    SMOKE: string,
    CH2O: int,
    SCC: string,
    FAF: int,
    TUE: int,
    CALC: string,
    MTRANS: string)

  /** A cell of the dictionary: a string, an integer or a float. */
  datatype Value = Text(text: string) | Int(n: int) | Float(x: real)

  /** The sixteen columns, in the order the record literal lists them. */
  const FeatureColumns: seq<string> :=
    ["Gender", "Age", "Height", "Weight", "family_history", "FAVC", "FCVC", "NCP",
     "CAEC", "SMOKE", "CH2O", "SCC", "FAF", "TUE", "CALC", "MTRANS"]

  /** The record as the dictionary literal `row`. */
  function AsDict(r: FeatureRecord): map<string, Value> {
    map[
      "Gender" := Text(r.Gender),
      "Age" := Int(r.Age),
      "Height" := Float(r.Height),
      "Weight" := Float(r.Weight),
      "family_history" := Text(r.family_history),
      "FAVC" := Text(r.FAVC),
      "FCVC" := Int(r.FCVC),
      "NCP" := Int(r.NCP),
      "CAEC" := Text(r.CAEC),
      "SMOKE" := Text(r.SMOKE),
      "CH2O" := Int(r.CH2O),
      "SCC" := Text(r.SCC),
      "FAF" := Int(r.FAF),
      "TUE" := Int(r.TUE),
      "CALC" := Text(r.CALC),
      "MTRANS" := Text(r.MTRANS)
    ]
  }

  /** The dictionary has exactly the sixteen columns as keys, no more. */
  lemma RowKeys(r: FeatureRecord)
    ensures AsDict(r).Keys == set c | c in FeatureColumns
    ensures |AsDict(r)| == |FeatureColumns| == 16
  {
    ColumnsDistinct();
  }

  /** No column is listed twice, so there are as many keys as columns. */
  lemma ColumnsDistinct()
    ensures Distinct(FeatureColumns)
    ensures |set c | c in FeatureColumns| == |FeatureColumns|
  {
    DistinctCardinality(FeatureColumns);
  }

  /** Each column name of the dictionary holds the record's field of that name. */
  lemma RowCells(r: FeatureRecord)
    ensures "Gender" in AsDict(r) && AsDict(r)["Gender"] == Text(r.Gender)
    ensures "Age" in AsDict(r) && AsDict(r)["Age"] == Int(r.Age)
    ensures "Height" in AsDict(r) && AsDict(r)["Height"] == Float(r.Height)
    ensures "Weight" in AsDict(r) && AsDict(r)["Weight"] == Float(r.Weight)
    ensures "family_history" in AsDict(r) && AsDict(r)["family_history"] == Text(r.family_history)
    ensures "FAVC" in AsDict(r) && AsDict(r)["FAVC"] == Text(r.FAVC)
    ensures "FCVC" in AsDict(r) && AsDict(r)["FCVC"] == Int(r.FCVC)
    ensures "NCP" in AsDict(r) && AsDict(r)["NCP"] == Int(r.NCP)
    ensures "CAEC" in AsDict(r) && AsDict(r)["CAEC"] == Text(r.CAEC)
    ensures "SMOKE" in AsDict(r) && AsDict(r)["SMOKE"] == Text(r.SMOKE)
    ensures "CH2O" in AsDict(r) && AsDict(r)["CH2O"] == Int(r.CH2O)
    ensures "SCC" in AsDict(r) && AsDict(r)["SCC"] == Text(r.SCC)
    ensures "FAF" in AsDict(r) && AsDict(r)["FAF"] == Int(r.FAF)
    ensures "TUE" in AsDict(r) && AsDict(r)["TUE"] == Int(r.TUE)
    ensures "CALC" in AsDict(r) && AsDict(r)["CALC"] == Text(r.CALC)
    ensures "MTRANS" in AsDict(r) && AsDict(r)["MTRANS"] == Text(r.MTRANS)
  {
    GenderCell(r);
    AgeCell(r);
    HeightCell(r);
    WeightCell(r);
    HistoryCell(r);
    FavcCell(r);
    FcvcCell(r);
    NcpCell(r);
    CaecCell(r);
    SmokeCell(r);
    Ch2oCell(r);
    SccCell(r);
    FafCell(r);
    TueCell(r);
    CalcCell(r);
    MtransCell(r);
  }

  // Proved all at once, beside the App module, the sixteen lookups come close
  // to the resource limit; one lemma per column keeps each lookup a small proof.
  lemma GenderCell(r: FeatureRecord) ensures "Gender" in AsDict(r) && AsDict(r)["Gender"] == Text(r.Gender) {}
  lemma AgeCell(r: FeatureRecord) ensures "Age" in AsDict(r) && AsDict(r)["Age"] == Int(r.Age) {}
  lemma HeightCell(r: FeatureRecord) ensures "Height" in AsDict(r) && AsDict(r)["Height"] == Float(r.Height) {}
  lemma WeightCell(r: FeatureRecord) ensures "Weight" in AsDict(r) && AsDict(r)["Weight"] == Float(r.Weight) {}
  lemma HistoryCell(r: FeatureRecord) ensures "family_history" in AsDict(r) && AsDict(r)["family_history"] == Text(r.family_history) {}
  lemma FavcCell(r: FeatureRecord) ensures "FAVC" in AsDict(r) && AsDict(r)["FAVC"] == Text(r.FAVC) {}
  lemma FcvcCell(r: FeatureRecord) ensures "FCVC" in AsDict(r) && AsDict(r)["FCVC"] == Int(r.FCVC) {}
  lemma NcpCell(r: FeatureRecord) ensures "NCP" in AsDict(r) && AsDict(r)["NCP"] == Int(r.NCP) {}
  lemma CaecCell(r: FeatureRecord) ensures "CAEC" in AsDict(r) && AsDict(r)["CAEC"] == Text(r.CAEC) {}
  lemma SmokeCell(r: FeatureRecord) ensures "SMOKE" in AsDict(r) && AsDict(r)["SMOKE"] == Text(r.SMOKE) {}
  lemma Ch2oCell(r: FeatureRecord) ensures "CH2O" in AsDict(r) && AsDict(r)["CH2O"] == Int(r.CH2O) {}
  lemma SccCell(r: FeatureRecord) ensures "SCC" in AsDict(r) && AsDict(r)["SCC"] == Text(r.SCC) {}
  lemma FafCell(r: FeatureRecord) ensures "FAF" in AsDict(r) && AsDict(r)["FAF"] == Int(r.FAF) {}
  lemma TueCell(r: FeatureRecord) ensures "TUE" in AsDict(r) && AsDict(r)["TUE"] == Int(r.TUE) {}
  lemma CalcCell(r: FeatureRecord) ensures "CALC" in AsDict(r) && AsDict(r)["CALC"] == Text(r.CALC) {}
  lemma MtransCell(r: FeatureRecord) ensures "MTRANS" in AsDict(r) && AsDict(r)["MTRANS"] == Text(r.MTRANS) {}
}
