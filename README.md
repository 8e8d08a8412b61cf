# Promotion gate and prediction server of wind-ci-cd

A Dafny model of the two components of the repository that hold its decision
and bookkeeping logic.

- `compare_and_deploy.dfy` (module `CompareAndDeploy`) models
  `src/compare_and_deploy.py`. This script decides whether a freshly trained
  model replaces the deployed one. It loads the candidate's
  `artifacts/metrics.json`. It resolves the production baseline accuracy:
  first a valid `PROD_ACCURACY` override, then `deployed_model/deployed_metrics.json`
  (0.0 when that file is unusable), and none at all on the first deploy. It
  accepts the candidate when there is no baseline or when the candidate is at
  least as accurate. An accepted candidate is copied into `deployed_model/`.
  The run ends with exit status 0 (deployed), 1 (no usable candidate) or
  2 (rejected). The pure function `Promote` is the specification of one run.
  The class `Store` holds the four files, and its method `Run` performs the
  run step by step and is proved equal to `Promote`.
- `serve_app.dfy` (module `ServeApp`) models `src/serve/app.py`. It covers
  the choice of the model file at start-up, the `/predict` handler and
  `/healthz`. The pure function `Respond` gives the response of one call.
  `Tally` gives the counters after it. The class `Telemetry` holds the
  process-wide `REQUESTS`, `ERRORS`, `PREDICTIONS` counters and the
  `CONFIDENCE` and `LATENCY` histograms. Its `Predict` method follows the
  handler step by step and is proved against `Respond` and `Tally`.
  `ServeBalanced` proves that `REQUESTS == ERRORS + PREDICTIONS` holds after
  any sequence of calls.
- `values.dfy` (module `Values`) holds what both share. It has `Option`.
  It has `Attempt`, the result of a Python call that may raise. It has
  `Json`, the values Python's json module decodes. It has Python's `float`
  on such a value.

The environment, the file system and the libraries are parameters:

- `PROD_ACCURACY` and `MODEL_PATH` are `Option<string>` (None when unset).
- Python's `float` on a string is `parse: string -> Option<real>`.
- `os.path.exists` is `pathExists: string -> bool`.
- The files of the gate form a `Disk` of four optional files. A metrics
  file that exists is `Corrupt` or `Holds` a decoded JSON value.
- The request body is what `get_json(force=True)` returns or raises.
- numpy's conversion, `model.predict` and the optional `model.predict_proba`
  form an `Engine` of opaque functions.
- The latency measured with `time.time()` is a parameter `elapsed`.

In these places the model follows the code rather than its comments or the
usual expectations:

- Publishing is not atomic. `deploy` copies the model, then writes the
  metrics, in two separate writes. `Store.CopyModel` states the state in
  between: the new model beside the old metrics.
- The handler does not validate the number of features. The comment at
  `src/serve/app.py:34` and the message at line 32 mention 13, but any row
  numpy can build is handed to the model. A wrong length is a 500 if the
  model raises and a 200 if it does not, never a 400 (`LengthIsNotChecked`).
- A body that is not valid JSON makes `get_json` raise. That exception is
  caught by the handler's `except Exception`, so the answer is a 500, not a
  400.
- Exit status 1 covers more than a missing candidate metrics file. It also
  covers every uncaught exception of the script: an undecodable metrics file,
  metrics that are not a dict, an accuracy `float` rejects, and a missing
  `artifacts/model.pkl` when `shutil.copyfile` runs. In each of these cases
  the deployed files are left as they were.

## Model

| member | source | states |
|---|---|---|
| `CompareAndDeploy.LoadNewMetrics` | src/compare_and_deploy.py:13-18 | the candidate metrics are available exactly when artifacts/metrics.json exists and decodes; a missing file gives no metrics (exit 1) |
| `CompareAndDeploy.AccuracyField` | src/compare_and_deploy.py:45 | a metrics dict without `accuracy` reads as 0.0; a present entry is converted by Python's `float`; a non-dict makes `.get` raise |
| `CompareAndDeploy.Override` | src/compare_and_deploy.py:21-27 | the override is honoured exactly when PROD_ACCURACY is set, non-empty and `float` accepts it, and its value is then the parsed number; otherwise it is ignored |
| `CompareAndDeploy.PersistedAccuracy` | src/compare_and_deploy.py:29-33 | an existing deployed metrics file gives its accuracy, and 0.0 when reading, decoding, `.get` or `float` fails or the entry is absent |
| `CompareAndDeploy.ProdAccuracy` | src/compare_and_deploy.py:20-35 | a set, non-empty, parsable override is the baseline whatever is on disk; otherwise an existing deployed metrics file decides it, so an invalid override never masks it; the baseline is None exactly when there is neither |
| `CompareAndDeploy.Accepts` | src/compare_and_deploy.py:49 | with no baseline every candidate is accepted; otherwise exactly candidates at least as accurate as the baseline are, so equal accuracy is accepted |
| `Values.Get` | src/compare_and_deploy.py:31 | `.get(key, default)` succeeds exactly on a dict, giving the entry when the key is present and the default otherwise; on any other value it raises an AttributeError "'<type>' object has no attribute 'get'" |
| `Values.PyFloat` | src/compare_and_deploy.py:45 | Python's `float` raises exactly on None, a list, a dict, a string it cannot parse, or an int of magnitude at least 2^1024 - 2^970 (OverflowError); a bool gives 1.0 or 0.0, an int within that range or a float its own value, a string its parsed value |
| `CompareAndDeploy.OverflowingAccuracy` | src/compare_and_deploy.py:29-33 | a deployed accuracy of 10^309 (an int `float` rejects) gives baseline 0.0, so a 0.9 candidate is deployed with status 0; the same value as the candidate's accuracy ends the run with status 1 |
| `CompareAndDeploy.AfterDeploy` | src/compare_and_deploy.py:37-40 | deploy succeeds exactly when the candidate model exists; afterwards the deployed model is the candidate model and the deployed metrics are the candidate metrics, and the candidate files are unchanged |
| `CompareAndDeploy.DeployIdempotent` | src/compare_and_deploy.py:37-40 | deploying the same candidate twice gives the same disk as deploying it once |
| `CompareAndDeploy.Promote` | src/compare_and_deploy.py:43-55 | the exit status is 0, 1 or 2; a missing or undecodable candidate metrics file exits 1 with nothing changed; status 2 exactly when the candidate is usable and fails the accept rule; status 0 exactly when it passes and the candidate model exists, and then the deployed slot holds the candidate model and metrics; every status other than 0 leaves the disk unchanged |
| `CompareAndDeploy.PromoteIdempotent` | src/compare_and_deploy.py:43-55 | a second run against the same candidate and override gives the same status and the same disk as the first |
| `CompareAndDeploy.FirstDeployAccepted` | src/compare_and_deploy.py:34-35 | with no deployed metrics and no override a candidate of accuracy 0.95 is accepted, exits 0 and is deployed |
| `CompareAndDeploy.WorseCandidateRejected` | src/compare_and_deploy.py:49-55 | a candidate of 0.80 against deployed 0.85 without override exits 2 with the disk unchanged |
| `CompareAndDeploy.OverrideBeatsDisk` | src/compare_and_deploy.py:22-25 | with the override "0.75" a candidate of 0.80 is accepted whatever the deployed metrics say |
| `CompareAndDeploy.Store.CopyModel` | src/compare_and_deploy.py:39 | the copy fails exactly when the candidate model is missing; on success the deployed model is the candidate's while the deployed metrics are still the old ones |
| `CompareAndDeploy.Store.WriteMetrics` | src/compare_and_deploy.py:40 | the deployed metrics file holds the candidate metrics |
| `CompareAndDeploy.Store.Deploy` | src/compare_and_deploy.py:37-40 | the two writes together leave the disk as `AfterDeploy` says, and a failed copy leaves it unchanged |
| `CompareAndDeploy.Store.Run` | src/compare_and_deploy.py:43-55 | the exit status and the files afterwards are those `Promote` gives for the files before |
| `ServeApp.ModelPath` | src/serve/app.py:7-13 | the chosen file exists; MODEL_PATH (default deployed_model/model.pkl) when it exists, else artifacts/model.pkl when that exists; start-up fails with "Model not found at ..." exactly when neither exists |
| `ServeApp.MaxOf` | src/serve/app.py:42 | the maximum is an element of the probability row and no element exceeds it |
| `ServeApp.Confidence` | src/serve/app.py:38-45 | the confidence is absent exactly when predict_proba is missing, raises, or gives an empty row; otherwise it is the largest class probability |
| `ServeApp.Respond` | src/serve/app.py:27-52 | an absent or null `features` in a dict body is the only 400, with the fixed message; any exception is a 500 (and only exceptions are) carrying its text: the body's decoding error, the AttributeError of `.get` on a non-dict body, numpy's conversion error or predict's error; otherwise 200 with the predicted class and the confidence of that row |
| `ServeApp.LengthIsNotChecked` | src/serve/app.py:34-36 | a feature row whose length is not 13 never yields a 400: it is a 500 when predict raises and a 200 when it does not |
| `ServeApp.Tally` | src/serve/app.py:26-52 | every call adds one request and exactly one error or one prediction; an error leaves predictions and both histograms unchanged; a success adds one latency, keeps errors, and observes the confidence exactly once when present and not at all when absent |
| `ServeApp.ServeBalanced` | src/serve/app.py:17-52 | over any sequence of calls the counters stay balanced (requests = errors + predictions, one latency per prediction, at most one confidence per prediction), every call is counted as a request, and the predictions are exactly the calls answered with 200 |
| `ServeApp.RequestsSplit` | src/serve/app.py:17-19 | from the zero counters at module load, after any calls, REQUESTS equals the number of calls and equals ERRORS + PREDICTIONS |
| `ServeApp.Telemetry.constructor` | src/serve/app.py:17-21 | the counters start at zero with empty histograms |
| `ServeApp.Telemetry.Predict` | src/serve/app.py:23-52 | the handler answers what `Respond` gives and leaves the counters as `Tally` gives, keeping them balanced |
| `ServeApp.Telemetry.Health` | src/serve/app.py:54-56 | `/healthz` answers "ok" with 200 and changes no counter |

## Left out

- `src/train.py` is not part of this model. It is the producer of the candidate model and metrics, through scikit-learn and floating-point numerics.
- File I/O, JSON encoding and pickling are abstract. The metrics that `deploy` writes with `json.dumps` are taken to read back as the same decoded value.
- `DEPLOY.mkdir` is not modelled, and neither are I/O failures of the writes in `deploy`. Only the copy's failure on a missing candidate model is modelled.
- Values.PyFloat: an int within the double range is taken at its exact value, not rounded to the nearest double.
- Python's `float` parsing (whitespace, `nan`, `inf`, rounding) and IEEE comparison are not modelled. Accuracies are `real` and `parse` is a parameter. A `nan` baseline, which rejects every candidate in Python, is therefore not captured.
- numpy's `np.array(...).reshape(1, -1)`, `model.predict`, `model.predict_proba` and `joblib.load` are opaque. The failure of `joblib.load` at start-up is not modelled; only the choice of the path is.
- The texts of exceptions raised by Flask, numpy and the model are parameters. Only the AttributeError text of `.get` on a non-dict body is spelled out.
- `/metrics` (Prometheus exposition), histogram buckets and the `print` messages of the gate are not modelled. Histograms are the sequences of values they observed.
- Flask routing and the HTTP server (`app.run`) are not modelled.
- Concurrent requests and the thread safety of the counters are not modelled. Each call is one atomic transition.
