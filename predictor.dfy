/**
 * The will_have_shot predictor: it loads a trained model once, turns a feature
 * dictionary into a vector in the model's column order, and alerts when the predicted
 * probability reaches the stored threshold. The model, the scaler and the artifact file
 * are opaque: they enter as values that carry their own functions.
 */
module ShotPredictor {
  import opened Wrappers

  /** A Python float: a finite number, NaN, or an infinity. */
  datatype PyFloat = Finite(r: real) | NaN | PosInf | NegInf

  /** The fitted classifier: the probability of the positive class, or `None` when it raises. */
  datatype Model = Model(predictProba: seq<real> -> Option<real>)

  /** The fitted scaler: the standardised vector, or `None` when it raises. */
  datatype Scaler = Scaler(transform: seq<real> -> Option<seq<real>>)

  /**
   * The dictionary stored in the artifact. `hasModel` is false when the `"model"` key is
   * missing; `model` is `None` when it is stored as `None`; absent keys of the other
   * entries read as their `.get` defaults.
   */
  datatype ModelData = ModelData(
    hasModel: bool,
    model: Option<Model>,
    scaler: Option<Scaler>,
    featureColumns: seq<string>,
    thresholdPrecision: Option<real>,
    thresholdF1: Option<real>)

  /** What `joblib.load` finds at a path that exists. */
  datatype Stored = Unreadable | Artifact(data: ModelData)

  /** The environment variable that overrides the model path. */
  const ModelPathVar := "WILL_HAVE_SHOT_MODEL_PATH"

  /** The threshold before any model is loaded and when the artifact names none. */
  const DefaultThreshold: real := 0.5

  /** The default path, under the repository root four directories above the module. */
  function DefaultModelPath(root: string): string {
    root + "/artifacts/will_have_shot_model.joblib"
  }

  /** `os.getenv(WILL_HAVE_SHOT_MODEL_PATH, default)`. */
  function ModelPath(env: map<string, string>, root: string): (p: string)
    ensures ModelPathVar in env ==> p == env[ModelPathVar]
    ensures ModelPathVar !in env ==> p == DefaultModelPath(root)
  {
    if ModelPathVar in env then env[ModelPathVar] else DefaultModelPath(root)
  }

  /** `threshold_precision`, else `threshold_f1`, else 0.5. */
  function SelectThreshold(data: ModelData): (t: real)
    ensures data.thresholdPrecision.Some? ==> t == data.thresholdPrecision.value
    ensures data.thresholdPrecision.None? && data.thresholdF1.Some? ==> t == data.thresholdF1.value
    ensures data.thresholdPrecision.None? && data.thresholdF1.None? ==> t == DefaultThreshold
  {
    data.thresholdPrecision.GetOr(data.thresholdF1.GetOr(DefaultThreshold))
  }

  /** `np.nan_to_num(x, nan=0.0, posinf=0.0, neginf=0.0)` on one entry. */
  function Clean(x: PyFloat): real {
    if x.Finite? then x.r else 0.0
  }

  /** The feature vector: one entry per column, in column order; absent, NaN and infinite read 0.0. */
  function FeatureVector(columns: seq<string>, features: map<string, PyFloat>): (v: seq<real>)
    ensures |v| == |columns|
    ensures forall i :: 0 <= i < |columns| ==>
      v[i] == (if columns[i] in features && features[columns[i]].Finite? then features[columns[i]].r else 0.0)
  {
    if columns == [] then []
    else
      var last := columns[|columns| - 1];
      FeatureVector(columns[..|columns| - 1], features)
        + [Clean(if last in features then features[last] else Finite(0.0))]
  }

  class WillHaveShotPredictor {
    var model: Option<Model>
    var scaler: Option<Scaler>
    var featureColumns: Option<seq<string>>
    var threshold: real
    var isActive: bool

    /** The untouched predictor: no model, threshold 0.5, inactive. */
    ghost predicate Unloaded()
      reads this
    {
      model.None? && scaler.None? && featureColumns.None? && threshold == DefaultThreshold && !isActive
    }

    /** The fields after a successful load of `data`. */
    ghost predicate LoadedFrom(data: ModelData)
      reads this
    {
      && model == data.model
      && scaler == data.scaler
      && featureColumns == Some(data.featureColumns)
      && threshold == SelectThreshold(data)
      && isActive
    }

    /**
     * `__init__`: the defaults, then `_load_model`. A missing file, an unreadable file or
     * an artifact without a model leave the defaults (inactive) and raise nothing.
     */
    constructor(env: map<string, string>, root: string, files: map<string, Stored>)
      ensures LoadSucceeds(env, root, files) ==> LoadedFrom(files[ModelPath(env, root)].data)
      ensures !LoadSucceeds(env, root, files) ==> Unloaded()
    {
      model := None;
      scaler := None;
      featureColumns := None;
      threshold := DefaultThreshold;
      isActive := false;
      new;
      LoadModel(env, root, files);
    }

    /**
     * `_load_model`: a missing file returns early and changes nothing; an unreadable
     * file or one without a model key is swallowed and sets `is_active` false.
     */
    method LoadModel(env: map<string, string>, root: string, files: map<string, Stored>)
      modifies this
      ensures LoadSucceeds(env, root, files) ==> LoadedFrom(files[ModelPath(env, root)].data)
      ensures !LoadSucceeds(env, root, files) ==>
        model == old(model) && scaler == old(scaler) && featureColumns == old(featureColumns)
        && threshold == old(threshold)
      ensures ModelPath(env, root) !in files ==> isActive == old(isActive)
      ensures ModelPath(env, root) in files && !LoadSucceeds(env, root, files) ==> !isActive
    {
      var path := ModelPath(env, root);
      if path !in files {
        return;
      }
      match files[path]
      case Unreadable =>
        isActive := false;
      case Artifact(data) =>
        if !data.hasModel {
          isActive := false;
          return;
        }
        model := data.model;
        scaler := data.scaler;
        featureColumns := Some(data.featureColumns);
        threshold := SelectThreshold(data);
        isActive := true;
    }

    /**
     * `predict_proba`: `None` when inactive or without a model, otherwise the model's
     * probability on the (scaled) feature vector, or `None` when scaler or model raises.
     */
    function PredictProba(features: map<string, PyFloat>): (r: Option<real>)
      reads this
      ensures !isActive || model.None? ==> r.None?
      ensures r.Some? ==> isActive && model.Some? && featureColumns.Some?
      ensures isActive && model.Some? && featureColumns.Some? && scaler.None? ==>
        r == model.value.predictProba(FeatureVector(featureColumns.value, features))
    ensures isActive && model.Some? && featureColumns.Some? && scaler.Some? ==>
      r == (match scaler.value.transform(FeatureVector(featureColumns.value, features))
            case None => None
            case Some(scaled) => model.value.predictProba(scaled))
    {
      if !isActive || model.None? then None
      else if featureColumns.None? then None
      else
        var vector := FeatureVector(featureColumns.value, features);
        match scaler
        case None => model.value.predictProba(vector)
        case Some(s) =>
          match s.transform(vector)
          case None => None
          case Some(scaled) => model.value.predictProba(scaled)
    }

    /** `should_alert`: never for `None`, otherwise exactly when `proba >= threshold`. */
    function ShouldAlert(proba: Option<real>): (r: bool)
      reads this
      ensures proba.None? ==> !r
      ensures proba.Some? ==> (r <==> proba.value >= threshold)
    {
      match proba
      case None => false
      case Some(p) => p >= threshold
    }
  }

  /** The load succeeds exactly when the path exists, the file reads and it holds a model key. */
  predicate LoadSucceeds(env: map<string, string>, root: string, files: map<string, Stored>) {
    var path := ModelPath(env, root);
    path in files && files[path].Artifact? && files[path].data.hasModel
  }

  /** An inactive predictor never alerts, whatever the features. */
  lemma InactiveNeverAlerts(p: WillHaveShotPredictor, features: map<string, PyFloat>)
    requires !p.isActive
    ensures !p.ShouldAlert(p.PredictProba(features))
  {
  }

  /** A probability that alerts keeps alerting when it grows. */
  lemma AlertMonotone(p: WillHaveShotPredictor, a: real, b: real)
    requires a <= b && p.ShouldAlert(Some(a))
    ensures p.ShouldAlert(Some(b))
  {
  }

  /** The feature vector ignores every feature that is not a column. */
  lemma {:induction false} VectorIgnoresOtherKeys(columns: seq<string>, f: map<string, PyFloat>, g: map<string, PyFloat>)
    requires forall c :: c in columns ==> (c in f <==> c in g) && (c in f ==> f[c] == g[c])
    ensures FeatureVector(columns, f) == FeatureVector(columns, g)
  {
    if columns != [] {
      VectorIgnoresOtherKeys(columns[..|columns| - 1], f, g);
    }
  }

  /**
   * The module-global `_predictor`: `get_will_have_shot_predictor` builds the predictor
   * on the first call and returns that same object on every later call.
   */
  class PredictorSingleton {
    var instance: Option<WillHaveShotPredictor>

    constructor()
      ensures instance.None?
    {
      instance := None;
    }

    method Get(env: map<string, string>, root: string, files: map<string, Stored>)
      returns (p: WillHaveShotPredictor)
      modifies this
      ensures instance == Some(p)
      ensures old(instance).Some? ==> p == old(instance).value
      ensures old(instance).None? ==> fresh(p)
      ensures old(instance).None? && LoadSucceeds(env, root, files) ==>
        p.LoadedFrom(files[ModelPath(env, root)].data)
      ensures old(instance).None? && !LoadSucceeds(env, root, files) ==> p.Unloaded()
    {
      if instance.None? {
        var created := new WillHaveShotPredictor(env, root, files);
        instance := Some(created);
      }
      p := instance.value;
    }
  }
}
