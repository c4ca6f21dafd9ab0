/** The input encoder of the obesity-prediction form (app/app.py): the options
    the form's widgets offer, the dictionaries that translate the Portuguese
    answers into the vocabulary the classifier was trained on, and the
    16-column record built from one submission. */
module App {
  import opened Wrappers
  import opened Tables
  import opened Row

  // ---------------------------------------------------------------------
  // The form: the options each widget offers, in the order it lists them
  // ---------------------------------------------------------------------

  const GenderOptions: seq<string> := ["Feminino", "Masculino"]
  /** The four yes/no radios: family history, caloric food, calorie monitoring, smoking. */
  const YesNoOptions: seq<string> := ["Sim", "Não"]
  const VegetableOptions: seq<string> := ["Raramente", "Às vezes", "Sempre"]
  const MealOptions: seq<string> := ["1", "2", "3", "4 ou mais"]
  /** Eating between meals and drinking alcohol offer the same four frequencies. */
  const FrequencyOptions: seq<string> := ["Não", "Às vezes", "Frequentemente", "Sempre"]
  const WaterOptions: seq<string> := ["< 1 L", "1–2 L", "> 2 L"]
  const ActivityOptions: seq<string> := ["0", "1–2", "3–4", "5+"]
  const ScreenOptions: seq<string> := ["0–2 h", "3–5 h", "> 5 h"]
  const TransportOptions: seq<string> := ["Automóvel", "Moto", "Bicicleta", "Transporte público", "A pé"]

  /** The bounds of the three number inputs. */
  const MinAge := 14
  const MaxAge := 61
  const MinHeight := 1.40
  const MaxHeight := 2.10
  const MinWeight := 30.0
  const MaxWeight := 200.0

  /** The values of the form's sixteen widgets, as submitted. */
  datatype Answers = Answers(
    gender: string,
    age: int,
    height: real,
    weight: real,
    familyHistory: string,
    vegetables: string,
    meals: string,
    betweenMeals: string,
    monitorsCalories: string,
    water: string,
    caloricFood: string,
    activity: string,
    screenTime: string,
    transport: string,
    alcohol: string,
    smokes: string)

  /** Every categorical answer is one of the options its widget offers. */
  predicate Offered(a: Answers) {
    && a.gender in GenderOptions
    && a.familyHistory in YesNoOptions
    && a.caloricFood in YesNoOptions
    && a.vegetables in VegetableOptions
    && a.meals in MealOptions
    && a.betweenMeals in FrequencyOptions
    && a.smokes in YesNoOptions
    && a.water in WaterOptions
    && a.monitorsCalories in YesNoOptions
    && a.activity in ActivityOptions
    && a.screenTime in ScreenOptions
    && a.alcohol in FrequencyOptions
    && a.transport in TransportOptions
  }

  /** `answer` is the answer to some categorical question whose widget does not offer it. */
  predicate Unoffered(a: Answers, answer: string) {
    || (answer == a.gender && answer !in GenderOptions)
    || (answer == a.familyHistory && answer !in YesNoOptions)
    || (answer == a.caloricFood && answer !in YesNoOptions)
    || (answer == a.vegetables && answer !in VegetableOptions)
    || (answer == a.meals && answer !in MealOptions)
    || (answer == a.betweenMeals && answer !in FrequencyOptions)
    || (answer == a.smokes && answer !in YesNoOptions)
    || (answer == a.water && answer !in WaterOptions)
    || (answer == a.monitorsCalories && answer !in YesNoOptions)
    || (answer == a.activity && answer !in ActivityOptions)
    || (answer == a.screenTime && answer !in ScreenOptions)
    || (answer == a.alcohol && answer !in FrequencyOptions)
    || (answer == a.transport && answer !in TransportOptions)
  }

  /** A submission the form itself can produce: offered options, and numbers
      within the bounds of their inputs. */
  predicate FromForm(a: Answers) {
    && Offered(a)
    && MinAge <= a.age <= MaxAge
    && MinHeight <= a.height <= MaxHeight
    && MinWeight <= a.weight <= MaxWeight
  }

  // ---------------------------------------------------------------------
  // The classifier's vocabulary, listed option by option
  // ---------------------------------------------------------------------

  const GenderCodes: seq<string> := ["Female", "Male"]
  const YesNoCodes: seq<string> := ["yes", "no"]
  const FrequencyCodes: seq<string> := ["no", "Sometimes", "Frequently", "Always"]
  const TransportCodes: seq<string> := ["Automobile", "Motorbike", "Bike", "Public_Transportation", "Walking"]

  // ---------------------------------------------------------------------
  // The translation dictionaries
  // ---------------------------------------------------------------------

  const MapGender: map<string, string> := map["Feminino" := "Female", "Masculino" := "Male"]
  const MapYesNo: map<string, string> := map["Sim" := "yes", "Não" := "no"]
  const MapCaec: map<string, string> :=
    map["Não" := "no", "Às vezes" := "Sometimes", "Frequentemente" := "Frequently", "Sempre" := "Always"]
  const MapCalc: map<string, string> :=
    map["Não" := "no", "Às vezes" := "Sometimes", "Frequentemente" := "Frequently", "Sempre" := "Always"]
  const MapMtrans: map<string, string> :=
    map["Automóvel" := "Automobile", "Moto" := "Motorbike", "Bicicleta" := "Bike",
        "Transporte público" := "Public_Transportation", "A pé" := "Walking"]

  const FcvcMap: map<string, int> := map["Raramente" := 1, "Às vezes" := 2, "Sempre" := 3]
  const NcpMap: map<string, int> := map["1" := 1, "2" := 2, "3" := 3, "4 ou mais" := 4]
  const Ch2oMap: map<string, int> := map["< 1 L" := 1, "1–2 L" := 2, "> 2 L" := 3]
  const FafMap: map<string, int> := map["0" := 0, "1–2" := 1, "3–4" := 2, "5+" := 3]
  const TueMap: map<string, int> := map["0–2 h" := 0, "3–5 h" := 1, "> 5 h" := 2]

  /** The exception a dictionary lookup raises for a key it does not hold. */
  datatype KeyError = KeyError(key: string)

  // ---------------------------------------------------------------------
  // The encoder
  // ---------------------------------------------------------------------

  /** The record literal `row`: the lookups run in the order the literal lists
      its entries, and the first label missing from its table raises; Age,
      Height and Weight are copied. It succeeds exactly on the answers the form
      offers, and the label it reports is one the form does not offer. */
  function Encode(a: Answers): (r: Result<FeatureRecord, KeyError>)
    ensures r.Success? <==> Offered(a)
    ensures r.Failure? ==> Unoffered(a, r.error.key)
  {
    LookupsSucceedOnForm(a);
    if a.gender !in MapGender then Failure(KeyError(a.gender))
    else if a.familyHistory !in MapYesNo then Failure(KeyError(a.familyHistory))
    else if a.caloricFood !in MapYesNo then Failure(KeyError(a.caloricFood))
    else if a.vegetables !in FcvcMap then Failure(KeyError(a.vegetables))
    else if a.meals !in NcpMap then Failure(KeyError(a.meals))
    else if a.betweenMeals !in MapCaec then Failure(KeyError(a.betweenMeals))
    else if a.smokes !in MapYesNo then Failure(KeyError(a.smokes))
    else if a.water !in Ch2oMap then Failure(KeyError(a.water))
    else if a.monitorsCalories !in MapYesNo then Failure(KeyError(a.monitorsCalories))
    else if a.activity !in FafMap then Failure(KeyError(a.activity))
    else if a.screenTime !in TueMap then Failure(KeyError(a.screenTime))
    else if a.alcohol !in MapCalc then Failure(KeyError(a.alcohol))
    else if a.transport !in MapMtrans then Failure(KeyError(a.transport))
    else Success(FeatureRecord(
      MapGender[a.gender], a.age, a.height, a.weight,
      MapYesNo[a.familyHistory], MapYesNo[a.caloricFood], FcvcMap[a.vegetables], NcpMap[a.meals],
      MapCaec[a.betweenMeals], MapYesNo[a.smokes], Ch2oMap[a.water], MapYesNo[a.monitorsCalories],
      FafMap[a.activity], TueMap[a.screenTime], MapCalc[a.alcohol], MapMtrans[a.transport]))
  }

  // ---------------------------------------------------------------------
  // The code of an answer, read off the option lists
  // ---------------------------------------------------------------------

  function GenderCode(x: string): string
    requires x in GenderOptions
  {
    GenderCodes[Position(GenderOptions, x)]
  }

  function YesNoCode(x: string): string
    requires x in YesNoOptions
  {
    YesNoCodes[Position(YesNoOptions, x)]
  }

  function FrequencyCode(x: string): string
    requires x in FrequencyOptions
  {
    FrequencyCodes[Position(FrequencyOptions, x)]
  }

  function TransportCode(x: string): string
    requires x in TransportOptions
  {
    TransportCodes[Position(TransportOptions, x)]
  }

  /** The ordinal scales count vegetables, meals and water from 1, activity and
      screen time from 0. */
  function VegetableScore(x: string): int
    requires x in VegetableOptions
  {
    1 + Position(VegetableOptions, x)
  }

  function MealScore(x: string): int
    requires x in MealOptions
  {
    1 + Position(MealOptions, x)
  }

  function WaterScore(x: string): int
    requires x in WaterOptions
  {
    1 + Position(WaterOptions, x)
  }

  function ActivityScore(x: string): int
    requires x in ActivityOptions
  {
    Position(ActivityOptions, x)
  }

  function ScreenScore(x: string): int
    requires x in ScreenOptions
  {
    Position(ScreenOptions, x)
  }

  /** The record a submission stands for, read off the option lists rather than
      the dictionaries; the numbers are kept. */
  function Expected(a: Answers): FeatureRecord
    requires Offered(a)
  {
    FeatureRecord(
      GenderCode(a.gender), a.age, a.height, a.weight,
      YesNoCode(a.familyHistory), YesNoCode(a.caloricFood),
      VegetableScore(a.vegetables), MealScore(a.meals),
      FrequencyCode(a.betweenMeals), YesNoCode(a.smokes),
      WaterScore(a.water), YesNoCode(a.monitorsCalories),
      ActivityScore(a.activity), ScreenScore(a.screenTime),
      FrequencyCode(a.alcohol), TransportCode(a.transport))
  }

  // ---------------------------------------------------------------------
  // The dictionaries against the form
  // ---------------------------------------------------------------------

  /** The keys of each dictionary are exactly the options of its widget, and
      each option maps to the code listed at its position. */
  lemma GenderTableMatchesForm()
    ensures Tabulates(MapGender, GenderOptions, GenderCodes)
  {
  }

  lemma YesNoTableMatchesForm()
    ensures Tabulates(MapYesNo, YesNoOptions, YesNoCodes)
  {
  }

  lemma CaecTableMatchesForm()
    ensures Tabulates(MapCaec, FrequencyOptions, FrequencyCodes)
  {
  }

  lemma CalcTableMatchesForm()
    ensures Tabulates(MapCalc, FrequencyOptions, FrequencyCodes)
  {
  }

  lemma MtransTableMatchesForm()
    ensures Tabulates(MapMtrans, TransportOptions, TransportCodes)
  {
  }

  /** The ordinal dictionaries number their options consecutively, from 1 or from 0. */
  lemma FcvcTableMatchesForm()
    ensures Tabulates(FcvcMap, VegetableOptions, Scale(1, |VegetableOptions|))
  {
  }

  lemma NcpTableMatchesForm()
    ensures Tabulates(NcpMap, MealOptions, Scale(1, |MealOptions|))
  {
  }

  lemma Ch2oTableMatchesForm()
    ensures Tabulates(Ch2oMap, WaterOptions, Scale(1, |WaterOptions|))
  {
  }

  lemma FafTableMatchesForm()
    ensures Tabulates(FafMap, ActivityOptions, Scale(0, |ActivityOptions|))
  {
  }

  lemma TueTableMatchesForm()
    ensures Tabulates(TueMap, ScreenOptions, Scale(0, |ScreenOptions|))
  {
  }

  /** The target vocabularies list no code twice. */
  lemma CodesDistinct()
    ensures Distinct(GenderCodes) && Distinct(YesNoCodes) && Distinct(FrequencyCodes)
    ensures Distinct(TransportCodes)
  {
  }

  /** Each translation dictionary is injective: no two answers share a code. */
  lemma CategoricalTablesInjective()
    ensures Injective(MapGender) && Injective(MapYesNo) && Injective(MapCaec) && Injective(MapCalc)
    ensures Injective(MapMtrans)
  {
    CodesDistinct();
    GenderTableMatchesForm();
    TabulatedInjective(MapGender, GenderOptions, GenderCodes);
    YesNoTableMatchesForm();
    TabulatedInjective(MapYesNo, YesNoOptions, YesNoCodes);
    CaecTableMatchesForm();
    TabulatedInjective(MapCaec, FrequencyOptions, FrequencyCodes);
    CalcTableMatchesForm();
    TabulatedInjective(MapCalc, FrequencyOptions, FrequencyCodes);
    MtransTableMatchesForm();
    TabulatedInjective(MapMtrans, TransportOptions, TransportCodes);
  }

  lemma OrdinalTablesInjective()
    ensures Injective(FcvcMap) && Injective(NcpMap) && Injective(Ch2oMap) && Injective(FafMap)
    ensures Injective(TueMap)
  {
    FcvcTableMatchesForm();
    ScaleDistinct(1, |VegetableOptions|);
    TabulatedInjective(FcvcMap, VegetableOptions, Scale(1, |VegetableOptions|));
    NcpTableMatchesForm();
    ScaleDistinct(1, |MealOptions|);
    TabulatedInjective(NcpMap, MealOptions, Scale(1, |MealOptions|));
    Ch2oTableMatchesForm();
    ScaleDistinct(1, |WaterOptions|);
    TabulatedInjective(Ch2oMap, WaterOptions, Scale(1, |WaterOptions|));
    FafTableMatchesForm();
    ScaleDistinct(0, |ActivityOptions|);
    TabulatedInjective(FafMap, ActivityOptions, Scale(0, |ActivityOptions|));
    TueTableMatchesForm();
    ScaleDistinct(0, |ScreenOptions|);
    TabulatedInjective(TueMap, ScreenOptions, Scale(0, |ScreenOptions|));
  }

  /** Each ordinal dictionary gives the options, in the order the widget lists
      them, strictly increasing codes. */
  lemma OrdinalTablesIncreasing()
    ensures StrictlyIncreasing(FcvcMap, VegetableOptions)
    ensures StrictlyIncreasing(NcpMap, MealOptions)
    ensures StrictlyIncreasing(Ch2oMap, WaterOptions)
    ensures StrictlyIncreasing(FafMap, ActivityOptions)
    ensures StrictlyIncreasing(TueMap, ScreenOptions)
  {
    FcvcTableMatchesForm();
    OrdinalIncreasing(FcvcMap, VegetableOptions, 1);
    NcpTableMatchesForm();
    OrdinalIncreasing(NcpMap, MealOptions, 1);
    Ch2oTableMatchesForm();
    OrdinalIncreasing(Ch2oMap, WaterOptions, 1);
    FafTableMatchesForm();
    OrdinalIncreasing(FafMap, ActivityOptions, 0);
    TueTableMatchesForm();
    OrdinalIncreasing(TueMap, ScreenOptions, 0);
  }

  /** Eating between meals and drinking alcohol are translated by equal
      dictionaries. */
  lemma FrequencyTablesEqual()
    ensures MapCaec == MapCalc
  {
  }

  // ---------------------------------------------------------------------
  // The lookups against the form
  // ---------------------------------------------------------------------

  /** Looking an answer up in a dictionary succeeds exactly when the widget
      offers it, and yields the code at the option's position. */
  lemma GenderLookup(x: string)
    ensures x in MapGender <==> x in GenderOptions
    ensures x in GenderOptions ==> MapGender[x] == GenderCode(x)
  {
    GenderTableMatchesForm();
    TabulatedLookup(MapGender, GenderOptions, GenderCodes, x);
  }

  lemma YesNoLookup(x: string)
    ensures x in MapYesNo <==> x in YesNoOptions
    ensures x in YesNoOptions ==> MapYesNo[x] == YesNoCode(x)
  {
    YesNoTableMatchesForm();
    TabulatedLookup(MapYesNo, YesNoOptions, YesNoCodes, x);
  }

  lemma CaecLookup(x: string)
    ensures x in MapCaec <==> x in FrequencyOptions
    ensures x in FrequencyOptions ==> MapCaec[x] == FrequencyCode(x)
  {
    CaecTableMatchesForm();
    TabulatedLookup(MapCaec, FrequencyOptions, FrequencyCodes, x);
  }

  lemma CalcLookup(x: string)
    ensures x in MapCalc <==> x in FrequencyOptions
    ensures x in FrequencyOptions ==> MapCalc[x] == FrequencyCode(x)
  {
    CalcTableMatchesForm();
    TabulatedLookup(MapCalc, FrequencyOptions, FrequencyCodes, x);
  }

  lemma MtransLookup(x: string)
    ensures x in MapMtrans <==> x in TransportOptions
    ensures x in TransportOptions ==> MapMtrans[x] == TransportCode(x)
  {
    MtransTableMatchesForm();
    TabulatedLookup(MapMtrans, TransportOptions, TransportCodes, x);
  }

  lemma FcvcLookup(x: string)
    ensures x in FcvcMap <==> x in VegetableOptions
    ensures x in VegetableOptions ==> FcvcMap[x] == VegetableScore(x)
  {
    FcvcTableMatchesForm();
    TabulatedLookup(FcvcMap, VegetableOptions, Scale(1, |VegetableOptions|), x);
  }

  lemma NcpLookup(x: string)
    ensures x in NcpMap <==> x in MealOptions
    ensures x in MealOptions ==> NcpMap[x] == MealScore(x)
  {
    NcpTableMatchesForm();
    TabulatedLookup(NcpMap, MealOptions, Scale(1, |MealOptions|), x);
  }

  lemma Ch2oLookup(x: string)
    ensures x in Ch2oMap <==> x in WaterOptions
    ensures x in WaterOptions ==> Ch2oMap[x] == WaterScore(x)
  {
    Ch2oTableMatchesForm();
    TabulatedLookup(Ch2oMap, WaterOptions, Scale(1, |WaterOptions|), x);
  }

  lemma FafLookup(x: string)
    ensures x in FafMap <==> x in ActivityOptions
    ensures x in ActivityOptions ==> FafMap[x] == ActivityScore(x)
  {
    FafTableMatchesForm();
    TabulatedLookup(FafMap, ActivityOptions, Scale(0, |ActivityOptions|), x);
  }

  lemma TueLookup(x: string)
    ensures x in TueMap <==> x in ScreenOptions
    ensures x in ScreenOptions ==> TueMap[x] == ScreenScore(x)
  {
    TueTableMatchesForm();
    TabulatedLookup(TueMap, ScreenOptions, Scale(0, |ScreenOptions|), x);
  }

  /** Each lookup the record literal performs succeeds exactly on the options
      its widget offers. */
  lemma LookupsSucceedOnForm(a: Answers)
    ensures a.gender in MapGender <==> a.gender in GenderOptions
    ensures a.familyHistory in MapYesNo <==> a.familyHistory in YesNoOptions
    ensures a.caloricFood in MapYesNo <==> a.caloricFood in YesNoOptions
    ensures a.vegetables in FcvcMap <==> a.vegetables in VegetableOptions
    ensures a.meals in NcpMap <==> a.meals in MealOptions
    ensures a.betweenMeals in MapCaec <==> a.betweenMeals in FrequencyOptions
    ensures a.smokes in MapYesNo <==> a.smokes in YesNoOptions
    ensures a.water in Ch2oMap <==> a.water in WaterOptions
    ensures a.monitorsCalories in MapYesNo <==> a.monitorsCalories in YesNoOptions
    ensures a.activity in FafMap <==> a.activity in ActivityOptions
    ensures a.screenTime in TueMap <==> a.screenTime in ScreenOptions
    ensures a.alcohol in MapCalc <==> a.alcohol in FrequencyOptions
    ensures a.transport in MapMtrans <==> a.transport in TransportOptions
  {
    GenderLookup(a.gender);
    YesNoLookup(a.familyHistory);
    YesNoLookup(a.caloricFood);
    FcvcLookup(a.vegetables);
    NcpLookup(a.meals);
    CaecLookup(a.betweenMeals);
    YesNoLookup(a.smokes);
    Ch2oLookup(a.water);
    YesNoLookup(a.monitorsCalories);
    FafLookup(a.activity);
    TueLookup(a.screenTime);
    CalcLookup(a.alcohol);
    MtransLookup(a.transport);
  }

  // ---------------------------------------------------------------------
  // What the encoder promises
  // ---------------------------------------------------------------------

  /** On an offered submission the encoder produces the record the option lists
      prescribe. */
  lemma EncodeYieldsExpected(a: Answers)
    requires Offered(a)
    ensures Encode(a) == Success(Expected(a))
  {
    LookupsSucceedOnForm(a);
    LookedUpIsExpected(a);
  }

  /** On offered answers the looked-up values are the codes the option lists
      give: the record the dictionaries build is the expected one. */
  lemma LookedUpIsExpected(a: Answers)
    requires Offered(a)
    ensures FeatureRecord(
      MapGender[a.gender], a.age, a.height, a.weight,
      MapYesNo[a.familyHistory], MapYesNo[a.caloricFood], FcvcMap[a.vegetables], NcpMap[a.meals],
      MapCaec[a.betweenMeals], MapYesNo[a.smokes], Ch2oMap[a.water], MapYesNo[a.monitorsCalories],
      FafMap[a.activity], TueMap[a.screenTime], MapCalc[a.alcohol], MapMtrans[a.transport]) == Expected(a)
  {
    YesNoColumnsExpected(a);
    TextColumnsExpected(a);
    OrdinalColumnsExpected(a);
  }

  /** The four yes/no columns hold the codes the yes/no list gives. */
  lemma YesNoColumnsExpected(a: Answers)
    requires Offered(a)
    ensures a.familyHistory in MapYesNo && MapYesNo[a.familyHistory] == Expected(a).family_history
    ensures a.caloricFood in MapYesNo && MapYesNo[a.caloricFood] == Expected(a).FAVC
    ensures a.smokes in MapYesNo && MapYesNo[a.smokes] == Expected(a).SMOKE
    ensures a.monitorsCalories in MapYesNo && MapYesNo[a.monitorsCalories] == Expected(a).SCC
  {
    YesNoLookup(a.familyHistory);
    YesNoLookup(a.caloricFood);
    YesNoLookup(a.smokes);
    YesNoLookup(a.monitorsCalories);
  }

  /** Gender, CAEC, CALC and MTRANS hold the codes their lists give. */
  lemma TextColumnsExpected(a: Answers)
    requires Offered(a)
    ensures a.gender in MapGender && MapGender[a.gender] == Expected(a).Gender
    ensures a.betweenMeals in MapCaec && MapCaec[a.betweenMeals] == Expected(a).CAEC
    ensures a.alcohol in MapCalc && MapCalc[a.alcohol] == Expected(a).CALC
    ensures a.transport in MapMtrans && MapMtrans[a.transport] == Expected(a).MTRANS
  {
    GenderLookup(a.gender);
    CaecLookup(a.betweenMeals);
    CalcLookup(a.alcohol);
    MtransLookup(a.transport);
  }

  /** The five ordinal columns hold the positions of their answers on their scales. */
  lemma OrdinalColumnsExpected(a: Answers)
    requires Offered(a)
    ensures a.vegetables in FcvcMap && FcvcMap[a.vegetables] == Expected(a).FCVC
    ensures a.meals in NcpMap && NcpMap[a.meals] == Expected(a).NCP
    ensures a.water in Ch2oMap && Ch2oMap[a.water] == Expected(a).CH2O
    ensures a.activity in FafMap && FafMap[a.activity] == Expected(a).FAF
    ensures a.screenTime in TueMap && TueMap[a.screenTime] == Expected(a).TUE
  {
    FcvcLookup(a.vegetables);
    NcpLookup(a.meals);
    Ch2oLookup(a.water);
    FafLookup(a.activity);
    TueLookup(a.screenTime);
  }

  /** Whatever the form submits is encoded: the record has exactly the sixteen
      columns, and Age, Height and Weight are the entered numbers, so they stay
      within the bounds of their inputs. */
  lemma FormAlwaysEncodes(a: Answers)
    requires FromForm(a)
    ensures Encode(a).Success?
    ensures AsDict(Encode(a).value).Keys == set c | c in FeatureColumns
    ensures Encode(a).value.Age == a.age && MinAge <= Encode(a).value.Age <= MaxAge
    ensures Encode(a).value.Height == a.height && MinHeight <= Encode(a).value.Height <= MaxHeight
    ensures Encode(a).value.Weight == a.weight && MinWeight <= Encode(a).value.Weight <= MaxWeight
  {
    EncodeYieldsExpected(a);
    RowKeys(Encode(a).value);
  }

  /** The row handed to the classifier holds, under each column name, the
      value that column is built from: the code of the matching answer, or the
      entered number. */
  lemma RowHoldsAnswers(a: Answers)
    requires Offered(a)
    ensures Encode(a).Success?
    ensures "Gender" in AsDict(Encode(a).value) && AsDict(Encode(a).value)["Gender"] == Text(GenderCode(a.gender))
    ensures "Age" in AsDict(Encode(a).value) && AsDict(Encode(a).value)["Age"] == Int(a.age)
    ensures "Height" in AsDict(Encode(a).value) && AsDict(Encode(a).value)["Height"] == Float(a.height)
    ensures "Weight" in AsDict(Encode(a).value) && AsDict(Encode(a).value)["Weight"] == Float(a.weight)
    ensures "family_history" in AsDict(Encode(a).value) && AsDict(Encode(a).value)["family_history"] == Text(YesNoCode(a.familyHistory))
    ensures "FAVC" in AsDict(Encode(a).value) && AsDict(Encode(a).value)["FAVC"] == Text(YesNoCode(a.caloricFood))
    ensures "FCVC" in AsDict(Encode(a).value) && AsDict(Encode(a).value)["FCVC"] == Int(VegetableScore(a.vegetables))
    ensures "NCP" in AsDict(Encode(a).value) && AsDict(Encode(a).value)["NCP"] == Int(MealScore(a.meals))
    ensures "CAEC" in AsDict(Encode(a).value) && AsDict(Encode(a).value)["CAEC"] == Text(FrequencyCode(a.betweenMeals))
    ensures "SMOKE" in AsDict(Encode(a).value) && AsDict(Encode(a).value)["SMOKE"] == Text(YesNoCode(a.smokes))
    ensures "CH2O" in AsDict(Encode(a).value) && AsDict(Encode(a).value)["CH2O"] == Int(WaterScore(a.water))
    ensures "SCC" in AsDict(Encode(a).value) && AsDict(Encode(a).value)["SCC"] == Text(YesNoCode(a.monitorsCalories))
    ensures "FAF" in AsDict(Encode(a).value) && AsDict(Encode(a).value)["FAF"] == Int(ActivityScore(a.activity))
    ensures "TUE" in AsDict(Encode(a).value) && AsDict(Encode(a).value)["TUE"] == Int(ScreenScore(a.screenTime))
    ensures "CALC" in AsDict(Encode(a).value) && AsDict(Encode(a).value)["CALC"] == Text(FrequencyCode(a.alcohol))
    ensures "MTRANS" in AsDict(Encode(a).value) && AsDict(Encode(a).value)["MTRANS"] == Text(TransportCode(a.transport))
  {
    EncodeYieldsExpected(a);
    RowCells(Encode(a).value);
  }

  /** A single answer outside its widget's options is enough to make the
      encoder raise instead of producing a record. */
  lemma UnofferedAnswerRejected(a: Answers, answer: string)
    requires Unoffered(a, answer)
    ensures Encode(a).Failure?
  {
  }

  /** No information is lost: two submissions that encode to the same record
      are the same submission. */
  lemma EncodeInjective(a: Answers, b: Answers)
    requires Encode(a).Success? && Encode(a) == Encode(b)
    ensures a == b
  {
    EncodeYieldsExpected(a);
    EncodeYieldsExpected(b);
    CodesDistinct();
    CodeDeterminesOption(GenderCodes, GenderOptions, a.gender, b.gender);
    CodeDeterminesOption(YesNoCodes, YesNoOptions, a.familyHistory, b.familyHistory);
    CodeDeterminesOption(YesNoCodes, YesNoOptions, a.caloricFood, b.caloricFood);
    CodeDeterminesOption(YesNoCodes, YesNoOptions, a.smokes, b.smokes);
    CodeDeterminesOption(YesNoCodes, YesNoOptions, a.monitorsCalories, b.monitorsCalories);
    CodeDeterminesOption(FrequencyCodes, FrequencyOptions, a.betweenMeals, b.betweenMeals);
    CodeDeterminesOption(FrequencyCodes, FrequencyOptions, a.alcohol, b.alcohol);
    CodeDeterminesOption(TransportCodes, TransportOptions, a.transport, b.transport);
  }

  /** The four yes/no answers, in the order the record lists their columns. */
  function YesNoAnswers(a: Answers): seq<string> {
    [a.familyHistory, a.caloricFood, a.smokes, a.monitorsCalories]
  }

  /** The columns family_history, FAVC, SMOKE and SCC. */
  function YesNoCells(r: FeatureRecord): seq<string> {
    [r.family_history, r.FAVC, r.SMOKE, r.SCC]
  }

  /** The four yes/no answers all go through the one yes/no dictionary, and
      eating between meals and drinking alcohol through equal dictionaries: two
      of these columns hold the same code exactly when the two answers are the
      same. */
  lemma SharedTablesAgree(a: Answers, r: FeatureRecord)
    requires Encode(a) == Success(r)
    ensures forall i :: 0 <= i < 4 ==>
      YesNoAnswers(a)[i] in MapYesNo && YesNoCells(r)[i] == MapYesNo[YesNoAnswers(a)[i]]
    ensures a.betweenMeals in MapCalc && r.CAEC == MapCalc[a.betweenMeals]
    ensures r.CAEC == r.CALC <==> a.betweenMeals == a.alcohol
    ensures forall i, j :: 0 <= i < 4 && 0 <= j < 4 ==>
      (YesNoCells(r)[i] == YesNoCells(r)[j] <==> YesNoAnswers(a)[i] == YesNoAnswers(a)[j])
  {
    LookupsSucceedOnForm(a);
    CategoricalTablesInjective();
    FrequencyTablesEqual();
    var cells, answers := YesNoCells(r), YesNoAnswers(a);
    assert answers == [a.familyHistory, a.caloricFood, a.smokes, a.monitorsCalories];
    assert cells == [MapYesNo[answers[0]], MapYesNo[answers[1]], MapYesNo[answers[2]], MapYesNo[answers[3]]];
  }

  // ---------------------------------------------------------------------
  // Worked submissions
  // ---------------------------------------------------------------------

  /** A typical submission and the record it becomes. */
  lemma TypicalSubmission()
    ensures Encode(Answers("Masculino", 25, 1.70, 75.0, "Sim", "Às vezes", "3", "Às vezes",
                           "Não", "1–2 L", "Sim", "1–2", "0–2 h", "Automóvel", "Não", "Não"))
         == Success(FeatureRecord("Male", 25, 1.70, 75.0, "yes", "yes", 2, 3,
                                  "Sometimes", "no", 2, "no", 1, 0, "no", "Automobile"))
  {
  }

  /** The top option of each ordinal scale. */
  lemma TopOfEachScale()
    ensures Encode(Answers("Feminino", 61, 2.10, 200.0, "Não", "Sempre", "4 ou mais", "Sempre",
                           "Sim", "> 2 L", "Não", "5+", "> 5 h", "A pé", "Sempre", "Sim"))
         == Success(FeatureRecord("Female", 61, 2.10, 200.0, "no", "no", 3, 4,
                                  "Always", "yes", 3, "yes", 3, 2, "Always", "Walking"))
  {
  }
}
