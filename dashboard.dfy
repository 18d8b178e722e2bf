/**
 * The clinician dashboard: the patient form and its handlers (drugs,
 * comorbidities, field edits), the summary tiles, the two prediction actions
 * and their busy flag, the rule that keeps the "ADR Predictions" tab open
 * while a prediction is shown, saving to and loading from history, and the
 * list limits of the result and admin views. Requests go through apiFetch;
 * JSON payloads stay symbolic and number-to-text conversion is a parameter.
 */
module Dashboard {
  import opened Wrappers
  import opened Text
  import opened StringOrder
  import OrderedSet
  import Auth
  import Api

  /** A value of one patient field: a number, a string, a checkbox flag, or null. */
  datatype Scalar = Number(x: real) | Str(s: string) | Flag(b: bool) | Null

  /**
   * patientData: the scalar fields by name, with the two list fields apart. A
   * missing list is the empty list, as every reader of them writes `|| []`.
   */
  datatype PatientData = PatientData(fields: map<string, Scalar>, comorbidities: seq<string>, selectedDrugs: seq<string>)

  const AgeKey := "anchor_age"
  const GenderKey := "gender"
  const CreatinineKey := "lab_creatinine"

  /** The form's initial values. */
  const DefaultFields: map<string, Scalar> := map[
    "anchor_age" := Number(65.0), "gender" := Str("M"), "weight" := Number(70.0), "height" := Number(170.0),
    "admission_type" := Str("Emergency"), "ward" := Str("ICU"), "num_admissions" := Number(1.0),
    "avg_los_days" := Number(4.5), "total_procedures" := Number(0.0),
    "lab_creatinine" := Number(1.0), "lab_hemoglobin" := Number(13.5), "lab_white_blood_cells" := Number(7.5),
    "lab_platelet_count" := Number(250.0), "lab_alt" := Number(25.0), "lab_ast" := Number(30.0),
    "lab_bilirubin" := Number(0.8), "lab_egfr" := Number(90.0), "lab_alp" := Number(70.0),
    "vital_heart_rate" := Number(72.0), "vital_respiratory_rate" := Number(16.0),
    "vital_temperature_celsius" := Number(37.0), "vital_spo2" := Number(98.0),
    "vital_arterial_blood_pressure_systolic" := Number(120.0),
    "vital_arterial_blood_pressure_diastolic" := Number(80.0),
    "vital_arterial_blood_pressure_mean" := Number(93.0)]

  const DefaultPatient := PatientData(DefaultFields, [], [])

  datatype Contribution = Contribution(feature: string, shapValue: real)

  /** PredictionResponse; the drug analysis block is not modelled. */
  datatype Prediction = Prediction(
    riskScore: real, riskCategory: string, timestamp: string,
    shapTopContributors: Option<seq<Contribution>>, recommendations: Option<seq<string>>,
    aiRecommendationsMd: Option<string>)

  /** RecordOut: one saved report. */
  datatype HistoryRecord = HistoryRecord(
    id: int, patientName: Option<string>, riskScore: real, riskCategory: string, createdAt: string,
    patientData: PatientData, predictionResult: Prediction, clinicalRecommendations: Option<string>)

  datatype AdminRecord = AdminRecord(id: int, userId: int, riskScore: real, riskCategory: string, createdAt: string)

  /** The performance metrics document, field by field. */
  type Metrics = map<string, Scalar>

  datatype Tab = Patients | AdrPredictions | Explainability | BiasAudit | WorkflowEfficiency
  datatype View = DashboardView | HistoryView | AdminView
  datatype UploadMethod = Manual | JsonUpload | CsvUpload
  datatype UploadKind = JsonKind | CsvKind

  // ---------------------------------------------------------------------------
  // Pure pieces of the handlers

  /** The summary tiles. */
  datatype Stats = Stats(patients: nat, medications: nat, predictions: nat, labs: nat)

  /** stats: one patient and one prediction exactly when a prediction is held; the drug count; a lab when creatinine is set. */
  function StatsOf(p: PatientData, prediction: Option<Prediction>): (r: Stats)
    ensures r.patients <= 1 && r.predictions == r.patients
    ensures r.patients == 1 <==> prediction.Some?
    ensures r.medications == |p.selectedDrugs|
    ensures r.labs <= 1
    ensures r.labs == 1 <==> CreatinineKey in p.fields && p.fields[CreatinineKey] != Null
  {
    var one := if prediction.Some? then 1 else 0;
    Stats(one, |p.selectedDrugs|, one, if CreatinineKey in p.fields && p.fields[CreatinineKey] != Null then 1 else 0)
  }

  /** The default form counts one lab in the tiles. */
  lemma DefaultStats()
    ensures StatsOf(DefaultPatient, None) == Stats(0, 0, 0, 1)
  {
  }

  /** The Add Drug button: a blank name changes nothing; otherwise the trimmed name goes at the end. */
  function AddedDrugs(drugs: seq<string>, name: string): (r: seq<string>)
    ensures Trim(name) == [] ==> r == drugs
    ensures Trim(name) != [] ==> |r| == |drugs| + 1 && r[..|drugs|] == drugs && r[|drugs|] == Trim(name)
  {
    var t := Trim(name);
    if t == [] then drugs else drugs + [t]
  }

  /** A drug added once is listed again if added twice: duplicates are kept. */
  lemma AddTwiceKeepsBoth(drugs: seq<string>, name: string)
    requires Trim(name) != []
    ensures multiset(AddedDrugs(AddedDrugs(drugs, name), name))[Trim(name)] == multiset(drugs)[Trim(name)] + 2
  {
    var t := Trim(name);
    assert AddedDrugs(AddedDrugs(drugs, name), name) == drugs + [t] + [t];
  }

  /** Array.prototype.splice(idx, 1) on a copy: the element at idx goes, the rest keep their order. */
  function Spliced(drugs: seq<string>, idx: nat): (r: seq<string>)
    ensures idx >= |drugs| ==> r == drugs
    ensures idx < |drugs| ==> |r| == |drugs| - 1
    ensures idx < |drugs| ==> forall i :: 0 <= i < idx ==> r[i] == drugs[i]
    ensures idx < |drugs| ==> forall i :: idx <= i < |r| ==> r[i] == drugs[i + 1]
  {
    if idx < |drugs| then drugs[..idx] + drugs[idx + 1..] else drugs
  }

  /** Removing loses exactly the one element at idx. */
  lemma SplicedMultiset(drugs: seq<string>, idx: nat)
    requires idx < |drugs|
    ensures multiset(Spliced(drugs, idx)) + multiset{drugs[idx]} == multiset(drugs)
  {
    assert drugs == drugs[..idx] + [drugs[idx]] + drugs[idx + 1..];
  }

  /** Removing the drug just added gives the list back. */
  lemma RemoveUndoesAdd(drugs: seq<string>, name: string)
    requires Trim(name) != []
    ensures Spliced(AddedDrugs(drugs, name), |drugs|) == drugs
  {
    var added := AddedDrugs(drugs, name);
    assert added[..|drugs|] == drugs;
  }

  /** The comorbidity checkbox: new Set(list), add or delete the label, back to an array. */
  function Toggled(cur: seq<string>, c: string, checked: bool): (r: seq<string>)
  {
    var s := OrderedSet.FromSeq(cur);
    if checked then OrderedSet.Add(s, c) else OrderedSet.Delete(s, c)
  }

  /**
   * After the toggle the list has no repetitions, holds c exactly when the box
   * was checked, and keeps every other label it had.
   */
  lemma ToggledShape(cur: seq<string>, c: string, checked: bool)
    ensures Distinct(Toggled(cur, c, checked))
    ensures c in Toggled(cur, c, checked) <==> checked
    ensures forall x :: x != c ==> (x in Toggled(cur, c, checked) <==> x in cur)
  {
    OrderedSet.FromSeqDistinct(cur);
  }

  /** Checking an already listed label of a list without repetitions changes nothing. */
  lemma ToggleOnPresent(cur: seq<string>, c: string)
    requires Distinct(cur) && c in cur
    ensures Toggled(cur, c, true) == cur
  {
    OrderedSet.FromSeqOfDistinct(cur);
  }

  /** Unchecking after checking removes what checking added. */
  lemma ToggleOnOff(cur: seq<string>, c: string)
    ensures Toggled(Toggled(cur, c, true), c, false) == Toggled(cur, c, false)
  {
    var s := OrderedSet.FromSeq(cur);
    OrderedSet.FromSeqDistinct(cur);
    var on := OrderedSet.Add(s, c);
    OrderedSet.FromSeqOfDistinct(on);
    if c !in s {
      DeleteAppended(s, c);
    }
  }

  /** Deleting a freshly appended label gives back the list before it. */
  lemma {:induction false} DeleteAppended(s: seq<string>, c: string)
    requires c !in s
    ensures OrderedSet.Delete(s + [c], c) == OrderedSet.Delete(s, c)
  {
    if s != [] {
      assert (s + [c])[1..] == s[1..] + [c];
      DeleteAppended(s[1..], c);
    }
  }

  /** A field edit: { ...patientData, key: value }. */
  function WithField(p: PatientData, key: string, v: Scalar): (r: PatientData)
    ensures key in r.fields && r.fields[key] == v
    ensures forall k :: k != key ==> (k in r.fields <==> k in p.fields)
    ensures forall k :: k != key && k in p.fields ==> r.fields[k] == p.fields[k]
    ensures r.comorbidities == p.comorbidities && r.selectedDrugs == p.selectedDrugs
  {
    p.(fields := p.fields[key := v])
  }

  /** Editing any field but creatinine leaves the tiles as they were. */
  lemma EditKeepsStats(p: PatientData, prediction: Option<Prediction>, key: string, v: Scalar)
    requires key != CreatinineKey
    ensures StatsOf(WithField(p, key, v), prediction) == StatsOf(p, prediction)
  {
  }

  /** Array.prototype.slice(0, n). */
  function Take<T>(s: seq<T>, n: nat): (r: seq<T>)
    ensures |r| <= n && |r| <= |s|
    ensures |r| == n || r == s
    ensures forall i :: 0 <= i < |r| ==> r[i] == s[i]
  {
    if |s| <= n then s else s[..n]
  }

  const ShapLimit := 10
  const AdminLimit := 25

  /** The SHAP list shown: nothing when absent or empty, else the first ten contributors in order. */
  function ShownContributors(pr: Prediction): (r: seq<Contribution>)
    ensures |r| <= ShapLimit
    ensures pr.shapTopContributors.None? ==> r == []
    ensures pr.shapTopContributors.Some? ==>
              |r| <= |pr.shapTopContributors.value| && r == pr.shapTopContributors.value[..|r|]
    ensures pr.shapTopContributors.Some? && |pr.shapTopContributors.value| <= ShapLimit ==> r == pr.shapTopContributors.value
    ensures pr.shapTopContributors.Some? && |pr.shapTopContributors.value| > ShapLimit ==> |r| == ShapLimit
  {
    match pr.shapTopContributors
    case None => []
    case Some(cs) => Take(cs, ShapLimit)
  }

  /** The admin panel: access denied (None) for non-admins, otherwise at most the first 25 records. */
  function ShownAdminRecords(user: Option<Auth.User>, records: seq<AdminRecord>): (r: Option<seq<AdminRecord>>)
    ensures r.Some? <==> IsAdmin(user)
    ensures r.Some? ==> |r.value| <= AdminLimit && |r.value| <= |records| && r.value == records[..|r.value|]
    ensures r.Some? && |records| > AdminLimit ==> |r.value| == AdminLimit
  {
    if IsAdmin(user) then Some(Take(records, AdminLimit)) else None
  }

  predicate IsAdmin(user: Option<Auth.User>)
  {
    user.Some? && user.value.role == "admin"
  }

  /** A template-literal substitution of a field value: numbers through the given formatter. */
  function ValueText(v: Option<Scalar>, numberText: real -> string): string
  {
    match v
    case None => "undefined"
    case Some(Null) => "null"
    case Some(Flag(b)) => if b then "true" else "false"
    case Some(Str(s)) => s
    case Some(Number(x)) => numberText(x)
  }

  const PatientPrefix := "Patient "
  const AgeSuffix := "y/"
  const RecommendationSeparator := "; "

  /** The body POSTed by Save to History. */
  datatype HistoryPayload = HistoryPayload(
    patientName: string, patientData: PatientData, predictionResult: Prediction, clinicalRecommendations: string)

  function Lookup(fields: map<string, Scalar>, key: string): Option<Scalar>
  {
    if key in fields then Some(fields[key]) else None
  }

  /** `Patient ${anchor_age}y/${gender}` */
  function PatientName(p: PatientData, numberText: real -> string): (r: string)
    ensures |PatientPrefix| <= |r| && r[..|PatientPrefix|] == PatientPrefix
    ensures r[|PatientPrefix|..] == ValueText(Lookup(p.fields, AgeKey), numberText) + AgeSuffix
                                    + ValueText(Lookup(p.fields, GenderKey), numberText)
  {
    PatientPrefix + ValueText(Lookup(p.fields, AgeKey), numberText) + AgeSuffix + ValueText(Lookup(p.fields, GenderKey), numberText)
  }

  /**
   * The history payload: the name, the form and the prediction as they are,
   * and the recommendations joined with "; " (empty when there are none).
   */
  function HistoryPayloadOf(p: PatientData, pr: Prediction, numberText: real -> string): (r: HistoryPayload)
    ensures r.patientData == p && r.predictionResult == pr
    ensures r.patientName == PatientName(p, numberText)
    ensures r.clinicalRecommendations == Join(pr.recommendations.GetOr([]), RecommendationSeparator)
  {
    HistoryPayload(PatientName(p, numberText), p, pr, Join(pr.recommendations.GetOr([]), RecommendationSeparator))
  }

  /** Missing or empty recommendations save an empty text; otherwise its length is the parts plus the separators. */
  lemma ClinicalRecommendationsText(p: PatientData, pr: Prediction, numberText: real -> string)
    ensures pr.recommendations.None? || pr.recommendations.value == [] ==>
              HistoryPayloadOf(p, pr, numberText).clinicalRecommendations == ""
    ensures pr.recommendations.Some? && pr.recommendations.value != [] ==>
              |HistoryPayloadOf(p, pr, numberText).clinicalRecommendations|
                == SumLengths(pr.recommendations.value) + 2 * (|pr.recommendations.value| - 1)
  {
    if pr.recommendations.Some? && pr.recommendations.value != [] {
      JoinLength(pr.recommendations.value, RecommendationSeparator);
    }
  }

  /** The default form is saved under the name "Patient <65>y/M". */
  lemma DefaultPatientName(numberText: real -> string)
    ensures PatientName(DefaultPatient, numberText) == PatientPrefix + numberText(65.0) + AgeSuffix + "M"
  {
  }

  /** The body of the JSON prediction request: { patient_data }. */
  datatype PredictBody = PredictBody(patientData: PatientData)

  const PredictPath := "/api/predictions/predict"
  const UploadPathPrefix := "/api/predictions/upload?kind="
  const HistoryPath := "/api/predictions/history"
  const AdminPath := "/api/admin/records"
  const MetricsPath := "/api/metrics/performance"
  const AuthRoute := "/auth"
  const FileField := "file"

  function KindText(kind: UploadKind): string
  {
    match kind
    case JsonKind => "json"
    case CsvKind => "csv"
  }

  /** The upload button sends "csv" for the CSV method and "json" otherwise. */
  function KindOf(m: UploadMethod): (r: UploadKind)
    ensures r == CsvKind <==> m == CsvUpload
  {
    if m == CsvUpload then CsvKind else JsonKind
  }

  // ---------------------------------------------------------------------------
  // The page

  /** A snapshot of every piece of page state. */
  datatype PageState = PageState(
    view: View, tab: Tab, patientData: PatientData, medName: string, prediction: Option<Prediction>,
    predicting: bool, error: Option<string>, uploadMethod: UploadMethod, uploadFile: Option<Api.File>,
    history: seq<HistoryRecord>, adminRecords: seq<AdminRecord>, metrics: Option<Metrics>,
    user: Option<Auth.User>, route: Option<string>)

  class DashboardPage {
    var view: View
    var tab: Tab
    var patientData: PatientData
    var medName: string
    var prediction: Option<Prediction>
    var predicting: bool
    var error: Option<string>
    var uploadMethod: UploadMethod
    var uploadFile: Option<Api.File>
    var history: seq<HistoryRecord>
    var adminRecords: seq<AdminRecord>
    var metrics: Option<Metrics>
    var user: Option<Auth.User>
    /** The target of the last router.replace, if any. */
    var route: Option<string>

    function State(): PageState
      reads this
    {
      PageState(view, tab, patientData, medName, prediction, predicting, error, uploadMethod, uploadFile,
                history, adminRecords, metrics, user, route)
    }

    /** The auto-tab effect has run: a held prediction is shown on its tab. */
    predicate Settled()
      reads this
    {
      prediction.Some? ==> tab == AdrPredictions
    }

    constructor()
      ensures State() == PageState(DashboardView, Patients, DefaultPatient, "", None, false, None, Manual, None,
                                   [], [], None, None, None)
      ensures Settled()
    {
      view := DashboardView;
      tab := Patients;
      patientData := DefaultPatient;
      medName := "";
      prediction := None;
      predicting := false;
      error := None;
      uploadMethod := Manual;
      uploadFile := None;
      history := [];
      adminRecords := [];
      metrics := None;
      user := None;
      route := None;
    }

    /** The mount effect: no truthy token sends the browser to the sign-in page; the stored user is read. */
    method Mount(store: Auth.SessionStore)
      modifies this
      ensures State() == old(State()).(route := if Api.Truthy(store.GetToken()) then old(route) else Some(AuthRoute),
                                      user := store.GetUser())
    {
      var token := store.GetToken();
      if !(token.Some? && token.value != "") {
        route := Some(AuthRoute);
      }
      user := store.GetUser();
    }

    /** The auto-tab effect: a held prediction forces the "ADR Predictions" tab. */
    method AutoTab()
      modifies this
      ensures Settled()
      ensures State() == old(State()).(tab := if prediction.Some? then AdrPredictions else old(tab))
    {
      if prediction.Some? && tab != AdrPredictions {
        tab := AdrPredictions;
      }
    }

    /** A tab button, followed by the auto-tab effect: while a prediction is held no other tab sticks. */
    method ClickTab(t: Tab)
      modifies this
      ensures Settled()
      ensures State() == old(State()).(tab := if prediction.Some? then AdrPredictions else t)
    {
      tab := t;
      AutoTab();
    }

    method ShowDashboard()
      modifies this
      ensures State() == old(State()).(view := DashboardView)
    {
      view := DashboardView;
    }

    method SetMedName(s: string)
      modifies this
      ensures State() == old(State()).(medName := s)
    {
      medName := s;
    }

    method SetUploadMethod(m: UploadMethod)
      modifies this
      ensures State() == old(State()).(uploadMethod := m)
    {
      uploadMethod := m;
    }

    method SetUploadFile(f: Option<Api.File>)
      modifies this
      ensures State() == old(State()).(uploadFile := f)
    {
      uploadFile := f;
    }

    /** Add Drug: a blank name is ignored; otherwise the trimmed name is appended and the input cleared. */
    method AddDrug()
      modifies this
      ensures Trim(old(medName)) == [] ==> State() == old(State())
      ensures Trim(old(medName)) != [] ==>
                State() == old(State()).(patientData := old(patientData).(selectedDrugs := AddedDrugs(old(patientData.selectedDrugs), old(medName))),
                                         medName := "")
    {
      var name := Trim(medName);
      if name == [] {
        return;
      }
      patientData := patientData.(selectedDrugs := patientData.selectedDrugs + [name]);
      medName := "";
    }

    /** The remove button of entry idx. */
    method RemoveDrug(idx: nat)
      modifies this
      ensures State() == old(State()).(patientData := old(patientData).(selectedDrugs := Spliced(old(patientData.selectedDrugs), idx)))
    {
      var next := patientData.selectedDrugs;
      if idx < |next| {
        next := next[..idx] + next[idx + 1..];
      }
      patientData := patientData.(selectedDrugs := next);
    }

    /** A comorbidity checkbox changed to checked. */
    method ToggleComorbidity(c: string, checked: bool)
      modifies this
      ensures State() == old(State()).(patientData := old(patientData).(comorbidities := Toggled(old(patientData.comorbidities), c, checked)))
    {
      var cur := OrderedSet.FromSeq(patientData.comorbidities);
      if checked {
        cur := OrderedSet.Add(cur, c);
      } else {
        cur := OrderedSet.Delete(cur, c);
      }
      patientData := patientData.(comorbidities := cur);
    }

    /** An input's onChange: one field of the form replaced. */
    method EditField(key: string, v: Scalar)
      modifies this
      ensures State() == old(State()).(patientData := WithField(old(patientData), key, v))
    {
      patientData := patientData.(fields := patientData.fields[key := v]);
    }

    /** The start of either predict action: the error cleared and the busy flag set. */
    method BeginPrediction()
      modifies this
      ensures State() == old(State()).(error := None, predicting := true)
    {
      error := None;
      predicting := true;
    }

    /**
     * The end of either predict action: the prediction taken and its tab shown,
     * or the error text kept; the busy flag always cleared.
     */
    method FinishPrediction(outcome: Result<Prediction, Api.ApiError>)
      modifies this
      ensures Settled()
      ensures outcome.Success? ==> State() == old(State()).(prediction := Some(outcome.value), tab := AdrPredictions, predicting := false)
      ensures outcome.Failure? ==> State() == old(State()).(error := Some(Api.Describe(outcome.error)), predicting := false,
                                                            tab := if old(prediction).Some? then AdrPredictions else old(tab))
    {
      match outcome {
        case Success(res) =>
          prediction := Some(res);
        case Failure(e) =>
          error := Some(Api.Describe(e));
      }
      predicting := false;
      AutoTab();
    }

    /** runPredictionJSON: POST { patient_data } and settle. */
    method RunPredictionJson(store: Auth.SessionStore, env: Option<string>,
                             transport: Api.Request<PredictBody> -> Api.Reply<Prediction>)
      returns (req: Api.Request<PredictBody>)
      modifies this
      ensures Api.Builds(req, store.GetToken(), Api.Base(env), PredictPath,
                         Api.Options(Some("POST"), [], None, Some(PredictBody(old(patientData)))))
      ensures !predicting && Settled()
      ensures var outcome := Api.Outcome(transport(req));
              && (outcome.Success? ==> State() == old(State()).(prediction := Some(outcome.value), tab := AdrPredictions, error := None, predicting := false))
              && (outcome.Failure? ==> State() == old(State()).(error := Some(Api.Describe(outcome.error)), predicting := false,
                                                                tab := if old(prediction).Some? then AdrPredictions else old(tab)))
    {
      BeginPrediction();
      var outcome;
      req, outcome := Api.ApiFetch(store, env, PredictPath, Api.Options(Some("POST"), [], None, Some(PredictBody(patientData))), transport);
      FinishPrediction(outcome);
    }

    /** uploadAndPredict: nothing at all without a chosen file; otherwise POST the file as form data and settle. */
    method UploadAndPredict(kind: UploadKind, store: Auth.SessionStore, env: Option<string>,
                            transport: Api.Request<PredictBody> -> Api.Reply<Prediction>)
      returns (req: Option<Api.Request<PredictBody>>)
      modifies this
      ensures old(uploadFile).None? ==> req.None? && State() == old(State())
      ensures old(uploadFile).Some? ==> req.Some? && !predicting && Settled()
      ensures old(uploadFile).Some? ==>
                Api.Builds(req.value, store.GetToken(), Api.Base(env), UploadPathPrefix + KindText(kind),
                           Api.Options(Some("POST"), [], Some(Api.FormBody([(FileField, Api.FileValue(old(uploadFile).value))])), None))
      ensures old(uploadFile).Some? ==>
                var outcome := Api.Outcome(transport(req.value));
                && (outcome.Success? ==> State() == old(State()).(prediction := Some(outcome.value), tab := AdrPredictions, error := None, predicting := false))
                && (outcome.Failure? ==> State() == old(State()).(error := Some(Api.Describe(outcome.error)), predicting := false,
                                                                  tab := if old(prediction).Some? then AdrPredictions else old(tab)))
    {
      if uploadFile.None? {
        return None;
      }
      BeginPrediction();
      var form := Api.FormBody([(FileField, Api.FileValue(uploadFile.value))]);
      var r, outcome := Api.ApiFetch(store, env, UploadPathPrefix + KindText(kind), Api.Options(Some("POST"), [], Some(form), None), transport);
      req := Some(r);
      FinishPrediction(outcome);
    }

    /**
     * The Upload & Predict button: disabled while predicting or without a file;
     * otherwise it runs uploadAndPredict with the kind of the chosen method, and
     * the page settles exactly as after uploadAndPredict.
     */
    method ClickUpload(store: Auth.SessionStore, env: Option<string>,
                       transport: Api.Request<PredictBody> -> Api.Reply<Prediction>)
      returns (req: Option<Api.Request<PredictBody>>)
      modifies this
      ensures old(predicting) || old(uploadFile).None? ==> req.None? && State() == old(State())
      ensures !old(predicting) && old(uploadFile).Some? ==>
                req.Some? && !predicting && Settled()
                && req.value.url == Api.Base(env) + UploadPathPrefix + KindText(KindOf(old(uploadMethod)))
                && req.value.body == Api.Raw(Api.FormBody([(FileField, Api.FileValue(old(uploadFile).value))]))
      ensures !old(predicting) && old(uploadFile).Some? ==>
                Api.Builds(req.value, store.GetToken(), Api.Base(env), UploadPathPrefix + KindText(KindOf(old(uploadMethod))),
                           Api.Options(Some("POST"), [], Some(Api.FormBody([(FileField, Api.FileValue(old(uploadFile).value))])), None))
      ensures !old(predicting) && old(uploadFile).Some? ==>
                var outcome := Api.Outcome(transport(req.value));
                && (outcome.Success? ==> State() == old(State()).(prediction := Some(outcome.value), tab := AdrPredictions, error := None, predicting := false))
                && (outcome.Failure? ==> State() == old(State()).(error := Some(Api.Describe(outcome.error)), predicting := false,
                                                                  tab := if old(prediction).Some? then AdrPredictions else old(tab)))
    {
      if predicting || uploadFile.None? {
        return None;
      }
      req := UploadAndPredict(KindOf(uploadMethod), store, env, transport);
    }

    /** saveToHistory: nothing without a prediction; otherwise the payload is POSTed and the page state stays as it is. */
    method SaveToHistory(store: Auth.SessionStore, env: Option<string>, numberText: real -> string)
      returns (req: Option<Api.Request<HistoryPayload>>)
      ensures prediction.None? <==> req.None?
      ensures prediction.Some? ==>
                Api.Builds(req.value, store.GetToken(), Api.Base(env), HistoryPath,
                           Api.Options(Some("POST"), [], None, Some(HistoryPayloadOf(patientData, prediction.value, numberText))))
    {
      if prediction.None? {
        return None;
      }
      var payload := HistoryPayloadOf(patientData, prediction.value, numberText);
      var r := Api.BuildRequest(store, env, HistoryPath, Api.Options(Some("POST"), [], None, Some(payload)));
      req := Some(r);
    }

    /** My History: the view switches, then the rows replace the list when the request succeeds. */
    method OpenHistory(store: Auth.SessionStore, env: Option<string>,
                       transport: Api.Request<()> -> Api.Reply<seq<HistoryRecord>>)
      returns (req: Api.Request<()>)
      modifies this
      ensures Api.Builds(req, store.GetToken(), Api.Base(env), HistoryPath, Api.Options(None, [], None, None))
      ensures var outcome := Api.Outcome(transport(req));
              State() == old(State()).(view := HistoryView, history := if outcome.Success? then outcome.value else old(history))
    {
      view := HistoryView;
      var outcome;
      req, outcome := Api.ApiFetch(store, env, HistoryPath, Api.Options(None, [], None, None), transport);
      if outcome.Success? {
        history := outcome.value;
      }
    }

    /** Admin Panel: the view switches, then the records replace the list when the request succeeds. */
    method OpenAdmin(store: Auth.SessionStore, env: Option<string>,
                     transport: Api.Request<()> -> Api.Reply<seq<AdminRecord>>)
      returns (req: Api.Request<()>)
      modifies this
      ensures Api.Builds(req, store.GetToken(), Api.Base(env), AdminPath, Api.Options(None, [], None, None))
      ensures var outcome := Api.Outcome(transport(req));
              State() == old(State()).(view := AdminView, adminRecords := if outcome.Success? then outcome.value else old(adminRecords))
    {
      view := AdminView;
      var outcome;
      req, outcome := Api.ApiFetch(store, env, AdminPath, Api.Options(None, [], None, None), transport);
      if outcome.Success? {
        adminRecords := outcome.value;
      }
    }

    /** Load Metrics: the document is kept when the request succeeds. */
    method LoadMetrics(store: Auth.SessionStore, env: Option<string>,
                       transport: Api.Request<()> -> Api.Reply<Metrics>)
      returns (req: Api.Request<()>)
      modifies this
      ensures Api.Builds(req, store.GetToken(), Api.Base(env), MetricsPath, Api.Options(None, [], None, None))
      ensures var outcome := Api.Outcome(transport(req));
              State() == old(State()).(metrics := if outcome.Success? then Some(outcome.value) else old(metrics))
    {
      var outcome;
      req, outcome := Api.ApiFetch(store, env, MetricsPath, Api.Options(None, [], None, None), transport);
      if outcome.Success? {
        metrics := Some(outcome.value);
      }
    }

    /** Load to Dashboard on a history row: its form and prediction, the dashboard view and the predictions tab. */
    method LoadFromHistory(r: HistoryRecord)
      modifies this
      ensures Settled()
      ensures State() == old(State()).(patientData := r.patientData, prediction := Some(r.predictionResult),
                                      view := DashboardView, tab := AdrPredictions)
    {
      patientData := r.patientData;
      prediction := Some(r.predictionResult);
      view := DashboardView;
      tab := AdrPredictions;
    }

    /** Log Out: the session is cleared, then the browser goes to the sign-in page (not reached when clearing throws). */
    method Logout(store: Auth.SessionStore)
      modifies this, store
      ensures store.hasWindow ==> store.storage == Auth.Cleared(old(store.storage)) && State() == old(State()).(route := Some(AuthRoute))
      ensures !store.hasWindow ==> store.storage == old(store.storage) && State() == old(State())
    {
      var ok := store.ClearAuth();
      if ok {
        route := Some(AuthRoute);
      }
    }
  }

  /** A page that logged out reads no session afterwards. */
  lemma LoggedOutHasNoSession(hasWindow: bool, storage: map<string, string>, codec: Auth.UserCodec)
    ensures !Api.Truthy(Auth.TokenLookup(hasWindow, Auth.Cleared(storage)))
    ensures Auth.UserLookup(hasWindow, Auth.Cleared(storage), codec).None?
  {
    Auth.NothingAfterClear(hasWindow, storage, codec);
  }

  /** Adding a drug raises the medication tile by one; removing an existing entry lowers it by one. */
  lemma DrugEditsMoveStats(p: PatientData, prediction: Option<Prediction>, name: string, idx: nat)
    ensures Trim(name) != [] ==>
              StatsOf(p.(selectedDrugs := AddedDrugs(p.selectedDrugs, name)), prediction).medications
                == StatsOf(p, prediction).medications + 1
    ensures idx < |p.selectedDrugs| ==>
              StatsOf(p.(selectedDrugs := Spliced(p.selectedDrugs, idx)), prediction).medications
                == StatsOf(p, prediction).medications - 1
  {
  }
}
