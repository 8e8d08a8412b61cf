/** The promotion gate of src/compare_and_deploy.py: it reads the candidate's
    metrics, resolves the production baseline accuracy through a priority
    chain, accepts the candidate when there is no baseline or the candidate is
    at least as accurate, copies the candidate into the deployed slot on
    acceptance, and ends the process with exit code 0, 1 or 2.

    Environment and disk are parameters: `env` is the value of PROD_ACCURACY
    (None when unset), `parse` is Python's `float` on a string, and the four
    files the script touches form a `Disk`. */
module CompareAndDeploy {
  import opened Values

  /** The bytes of a pickled model file. */
  type Blob = seq<bv8>

  /** A JSON file that exists: either `json.load` decodes it, or reading or
      decoding it raises. */
  datatype StoredFile = Corrupt | Holds(json: Json)

  /** The four files the gate reads or writes; None is a file that does not exist. */
  datatype Disk = Disk(
    candidateModel: Option<Blob>,          // artifacts/model.pkl
    candidateMetrics: Option<StoredFile>,  // artifacts/metrics.json
    deployedModel: Option<Blob>,           // deployed_model/model.pkl
    deployedMetrics: Option<StoredFile>)   // deployed_model/deployed_metrics.json

  /** Exit status after an accepted and deployed candidate. */
  const ACCEPTED := 0
  /** Exit status when there is no usable candidate: `sys.exit(1)` for a
      missing metrics file, and Python's status for an uncaught exception. */
  const FATAL := 1
  /** Exit status after a rejected candidate. */
  const REJECTED := 2

  /** How one run of the script ends: its exit status and the disk it leaves. */
  datatype Outcome = Outcome(code: int, disk: Disk)

  /** `load_new_metrics`: the decoded candidate metrics, or None when the
      process ends with status 1 instead, because the file is missing
      (`sys.exit(1)`) or `read_json` raises. */
  function LoadNewMetrics(f: Option<StoredFile>): (r: Option<Json>)
    ensures f.None? ==> r.None?
    ensures r.Some? <==> f.Some? && f.value.Holds?
    ensures r.Some? ==> f == Some(Holds(r.value))
  {
    match f
    case Some(Holds(j)) => Some(j)
    case _ => None
  }

  /** `float(metrics.get("accuracy", 0.0))`, or None where `.get` or `float`
      raises. */
  function AccuracyField(metrics: Json, parse: string -> Option<real>): (r: Option<real>)
    ensures !metrics.JObject? ==> r.None?
    ensures metrics.JObject? && "accuracy" !in metrics.fields ==> r == Some(0.0)
    ensures metrics.JObject? && "accuracy" in metrics.fields ==>
              r == PyFloat(metrics.fields["accuracy"], parse)
  {
    match Get(metrics, "accuracy", JFloat(0.0))
    case Done(v) => PyFloat(v, parse)
    case Raised(_) => None
  }

  /** The PROD_ACCURACY override: honoured only when it is set, non-empty and
      `float` accepts it. */
  function Override(env: Option<string>, parse: string -> Option<real>): (r: Option<real>)
    ensures r.Some? <==> env.Some? && env.value != "" && parse(env.value).Some?
    ensures r.Some? ==> r == parse(env.value)
  {
    if env.Some? && env.value != "" then parse(env.value) else None
  }

  /** The baseline read from an existing deployed_metrics.json: its accuracy,
      and 0.0 whenever reading, decoding, `.get` or `float` raises. */
  function PersistedAccuracy(f: StoredFile, parse: string -> Option<real>): (r: real)
    ensures f.Corrupt? ==> r == 0.0
    ensures f.Holds? && AccuracyField(f.json, parse).Some? ==> r == AccuracyField(f.json, parse).value
    ensures f.Holds? && AccuracyField(f.json, parse).None? ==> r == 0.0
    ensures f.Holds? && f.json.JObject? && "accuracy" !in f.json.fields ==> r == 0.0
  {
    match f
    case Corrupt => 0.0
    case Holds(j) =>
      match AccuracyField(j, parse)
      case Some(a) => a
      case None => 0.0
  }

  /** `get_prod_accuracy`: a valid override wins whatever is on disk; without
      one, an existing deployed metrics file gives the baseline (0.0 when it
      is unusable); with neither there is no baseline (the first deploy). */
  function ProdAccuracy(env: Option<string>, deployed: Option<StoredFile>,
                        parse: string -> Option<real>): (r: Option<real>)
    ensures Override(env, parse).Some? ==> r == Override(env, parse)
    ensures Override(env, parse).None? && deployed.Some? ==>
              r == Some(PersistedAccuracy(deployed.value, parse))
    ensures r.None? <==> Override(env, parse).None? && deployed.None?
  {
    match Override(env, parse)
    case Some(x) => Some(x)
    case None =>
      if deployed.Some? then Some(PersistedAccuracy(deployed.value, parse)) else None
  }

  /** The accept rule: with no baseline every candidate is accepted, and
      otherwise exactly those at least as accurate as the baseline, ties
      included. */
  function Accepts(newAcc: real, prodAcc: Option<real>): (r: bool)
    ensures prodAcc.None? ==> r
    ensures prodAcc == Some(newAcc) ==> r
    ensures prodAcc.Some? ==> (r <==> prodAcc.value <= newAcc)
  {
    prodAcc.None? || newAcc >= prodAcc.value
  }

  /** `deploy`: the disk after the model copy and the metrics write, or None
      when `shutil.copyfile` raises because the candidate model is missing
      (the deployed slot is then untouched). */
  function AfterDeploy(d: Disk, metrics: Json): (r: Option<Disk>)
    ensures r.Some? <==> d.candidateModel.Some?
    ensures r.Some? ==> r.value.deployedModel == d.candidateModel
    ensures r.Some? ==> r.value.deployedMetrics == Some(Holds(metrics))
    ensures r.Some? ==>
              r.value.candidateModel == d.candidateModel && r.value.candidateMetrics == d.candidateMetrics
  {
    if d.candidateModel.None? then None
    else Some(d.(deployedModel := d.candidateModel, deployedMetrics := Some(Holds(metrics))))
  }

  /** Deploying the same candidate twice leaves the disk as deploying it once. */
  lemma DeployIdempotent(d: Disk, metrics: Json)
    requires AfterDeploy(d, metrics).Some?
    ensures AfterDeploy(AfterDeploy(d, metrics).value, metrics) == AfterDeploy(d, metrics)
  {
  }

  /** One run of the script's main block. A run that does not exit with 0
      leaves the disk as it found it; a run that exits with 0 has copied the
      candidate model and metrics into the deployed slot. */
  function Promote(d: Disk, env: Option<string>, parse: string -> Option<real>): (o: Outcome)
    ensures o.code == ACCEPTED || o.code == FATAL || o.code == REJECTED
    ensures LoadNewMetrics(d.candidateMetrics).None? ==> o == Outcome(FATAL, d)
    ensures o.code != ACCEPTED ==> o.disk == d
    ensures o.code == ACCEPTED ==>
              d.candidateModel.Some? &&
              o.disk == d.(deployedModel := d.candidateModel, deployedMetrics := d.candidateMetrics)
    ensures o.code == ACCEPTED <==>
              d.candidateModel.Some? &&
              var m := LoadNewMetrics(d.candidateMetrics);
              m.Some? && AccuracyField(m.value, parse).Some? &&
              Accepts(AccuracyField(m.value, parse).value, ProdAccuracy(env, d.deployedMetrics, parse))
    ensures o.code == REJECTED <==>
              var m := LoadNewMetrics(d.candidateMetrics);
              m.Some? && AccuracyField(m.value, parse).Some? &&
              !Accepts(AccuracyField(m.value, parse).value, ProdAccuracy(env, d.deployedMetrics, parse))
  {
    match LoadNewMetrics(d.candidateMetrics)
    case None => Outcome(FATAL, d)
    case Some(metrics) =>
      match AccuracyField(metrics, parse)
      case None => Outcome(FATAL, d)
      case Some(newAcc) =>
        if Accepts(newAcc, ProdAccuracy(env, d.deployedMetrics, parse)) then
          match AfterDeploy(d, metrics)
          case Some(d') => Outcome(ACCEPTED, d')
          case None => Outcome(FATAL, d)
        else
          Outcome(REJECTED, d)
  }

  /** Running the gate again against the same candidate and the same override
      changes nothing more: a rejection or failure left the disk as it was,
      and after an acceptance the deployed metrics are the candidate's, whose
      accuracy ties with itself and is accepted again. This rests on `>=`
      being reflexive on `real`; in Python a `nan` accuracy is accepted on a
      first deploy and rejected on the rerun, since `nan >= nan` is False
      (see "Left out" in the README on `nan`). */
  lemma PromoteIdempotent(d: Disk, env: Option<string>, parse: string -> Option<real>)
    ensures Promote(Promote(d, env, parse).disk, env, parse) == Promote(d, env, parse)
  {
  }

  /** Scenario: no production model yet, candidate accuracy 0.95: accepted and deployed. */
  lemma FirstDeployAccepted(model: Blob, parse: string -> Option<real>)
    ensures var d := Disk(Some(model), Some(Holds(JObject(map["accuracy" := JFloat(0.95)]))), None, None);
            Promote(d, None, parse) ==
              Outcome(ACCEPTED, d.(deployedModel := Some(model), deployedMetrics := d.candidateMetrics))
  {
  }

  /** Scenario: candidate 0.80 against a deployed 0.85 and no override: rejected, nothing changes. */
  lemma WorseCandidateRejected(d: Disk, parse: string -> Option<real>)
    requires d.candidateMetrics == Some(Holds(JObject(map["accuracy" := JFloat(0.80)])))
    requires d.deployedMetrics == Some(Holds(JObject(map["accuracy" := JFloat(0.85)])))
    ensures Promote(d, None, parse) == Outcome(REJECTED, d)
  {
  }

  /** An accuracy stored as an int too large for a double makes `float` raise
      an OverflowError: as a deployed baseline it reads as 0.0 and a candidate
      of 0.9 is deployed; as the candidate's own accuracy the run exits 1. */
  lemma OverflowingAccuracy(d: Disk, parse: string -> Option<real>)
    requires d.candidateModel.Some?
    ensures var huge := JObject(map["accuracy" := JInt(1000000000000000000000000000000000000000000000000000000000000000000000000000000000000000000000000000000000000000000000000000000000000000000000000000000000000000000000000000000000000000000000000000000000000000000000000000000000000000000000000000000000000000000000000000000000000000000000000000000000000000000000)]);
            var small := JObject(map["accuracy" := JFloat(0.9)]);
            Promote(d.(candidateMetrics := Some(Holds(small)), deployedMetrics := Some(Holds(huge))), None, parse).code == ACCEPTED &&
            Promote(d.(candidateMetrics := Some(Holds(huge))), None, parse).code == FATAL
  {
  }

  /** Scenario: candidate 0.80 with the override "0.75": accepted whatever is deployed. */
  lemma OverrideBeatsDisk(d: Disk, parse: string -> Option<real>)
    requires d.candidateModel.Some?
    requires d.candidateMetrics == Some(Holds(JObject(map["accuracy" := JFloat(0.80)])))
    requires parse("0.75") == Some(0.75)
    ensures Promote(d, Some("0.75"), parse).code == ACCEPTED
  {
  }

  /** The files on disk, updated in place by the script. The candidate files
      are only ever read. */
  class Store {
    var candidateModel: Option<Blob>
    var candidateMetrics: Option<StoredFile>
    var deployedModel: Option<Blob>
    var deployedMetrics: Option<StoredFile>

    function Contents(): (d: Disk)
      reads this
    {
      Disk(candidateModel, candidateMetrics, deployedModel, deployedMetrics)
    }

    constructor (d: Disk)
      ensures Contents() == d
    {
      candidateModel, candidateMetrics := d.candidateModel, d.candidateMetrics;
      deployedModel, deployedMetrics := d.deployedModel, d.deployedMetrics;
    }

    /** `shutil.copyfile(ART / "model.pkl", DEPLOY / "model.pkl")`: raises
        (reported as `false`) when the candidate model is missing. On success
        the deployed model is new while the deployed metrics are still the
        old ones. */
    method CopyModel() returns (copied: bool)
      modifies this`deployedModel
      ensures copied == candidateModel.Some?
      ensures deployedModel == if copied then candidateModel else old(deployedModel)
      ensures deployedMetrics == old(deployedMetrics)
    {
      copied := candidateModel.Some?;
      if copied {
        deployedModel := candidateModel;
      }
    }

    /** `DEPLOY_METRICS.write_text(json.dumps(new_metrics))`. */
    method WriteMetrics(metrics: Json)
      modifies this`deployedMetrics
      ensures deployedMetrics == Some(Holds(metrics))
    {
      deployedMetrics := Some(Holds(metrics));
    }

    /** `deploy`: two separate writes, the model and then the metrics. */
    method Deploy(metrics: Json) returns (ok: bool)
      modifies this`deployedModel, this`deployedMetrics
      ensures AfterDeploy(old(Contents()), metrics) == if ok then Some(Contents()) else None
      ensures !ok ==> Contents() == old(Contents())
    {
      ok := CopyModel();
      if ok {
        WriteMetrics(metrics);
      }
    }

    /** The script's main block. */
    method Run(env: Option<string>, parse: string -> Option<real>) returns (code: int)
      modifies this`deployedModel, this`deployedMetrics
      ensures Outcome(code, Contents()) == Promote(old(Contents()), env, parse)
    {
      var newMetrics := LoadNewMetrics(candidateMetrics);
      if newMetrics.None? {
        return FATAL;
      }
      var newAcc := AccuracyField(newMetrics.value, parse);
      if newAcc.None? {
        return FATAL;
      }
      var prodAcc := ProdAccuracy(env, deployedMetrics, parse);
      if Accepts(newAcc.value, prodAcc) {
        var ok := Deploy(newMetrics.value);
        code := if ok then ACCEPTED else FATAL;
      } else {
        code := REJECTED;
      }
    }
  }
}
