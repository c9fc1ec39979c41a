# A verified model of a self-healing control loop

The system watches a running service along several dimensions (throughput,
errors, latency, resources), diagnoses anomalies in what it sees, generates
corrective actions on three horizons (hotfix, refactoring, redesign),
optimises them into a plan, and keeps an observable record of metrics,
events, diagnoses and plans. A Kubernetes operator rolls a deployment back
to an earlier revision when it stops being healthy.

This project models the decision logic of that loop in Dafny and proves
what the code promises about it:

- the first-generation Python pipeline (`src/monitoramento.py`,
  `src/diagnostico.py`, `src/gerador_acoes.py`): simulated sampling into a
  history, window means and threshold flags, a weighted anomaly score with a
  first-match classification cascade and a fixed recommendation table, and
  a table of actions with a severity bump and a stable two-key ordering;
- the second-generation Python packages (`src/monitoramento/`,
  `src/diagnostico/`, `src/gerador_acoes/`, `src/observabilidade/`):
  metric, event, action, plan and diagnosis records with their dictionary
  round trips, collectors that count and reset, time-window aggregation,
  context enrichment and sliding windows, anomaly-pattern matching, an
  expert rule engine, chaotic-series and gradient analysis, the diagnosis
  coordinator, hotfix, refactoring and redesign generators, a
  multi-objective plan score with a genetic optimiser, the plan store, and
  the observability bookkeeping (sorted bounded histories, projections and
  their adjustment by actions and plans, report counters);
- the Go rollback operator: the informer-driven controller
  (`controller/rollback_controller.go`: deployment health, choice of the
  previous revision and its ReplicaSet, rewrite of the deployment, work-queue
  handling) and the `RollbackPolicy` reconciler
  (`controller/controllers/rollback_controller.go`: condition evaluation and
  status bookkeeping).

Objects whose fields the code updates in place (collectors, aggregator,
rule engine, analysers, generators, plan store, projector, observability
hub) are Dafny classes whose methods are proved against specification
functions of their old state; records, conversions and scoring are
datatypes, functions and lemmas. Randomness, the clock, numerical library
routines (regression, polynomial fits, correlation, entropy, square roots)
and float formatting are parameters of the operations that use them, and
every property is proved for all of their outcomes.

Modules, one per file:

| module | what it holds |
|---|---|
| `Wrappers` | `Option` and `Result` |
| `Seqs` | sums, means, extrema, bounded-history (`deque(maxlen)`) idioms |
| `Sorting` | a stable sort by a real key: ordered, a permutation, stable |
| `Dicts` | insertion-ordered dictionaries |
| `Counters` | the `d[k] = d.get(k, 0) + 1` counting idiom |
| `Text` | decimal rendering, substring search, `str.replace` |
| `Values` | Python values in loosely typed dictionaries |
| `Stats` | median and the window summary |
| `Metric` | `MetricaDimensional` and its dictionary form |
| `Aggregation` | `AgregadorTemporal` |
| `Collectors` | `ColetorThroughput`, `ColetorErros`, `ColetorLatencia` |
| `Context` | `ProcessadorContexto`, `AnalisadorFluxoContínuo` |
| `BasicMonitoring` | first-generation `MonitoramentoMultidimensional`, `gerar_metricas` |
| `BasicDiagnosis` | first-generation `RedeNeuralDiagnostico` |
| `BasicActions` | first-generation `GeradorAcoes` |
| `Patterns` | `PadraoAnomalia.corresponde`, `Diagnostico` dictionary form |
| `Rules` | `MotorRegrasEspecialistas` |
| `Chaos` | `DetectorAnomaliasCaoticas` |
| `Gradients` | `AnalisadorGradientes` |
| `Coordinator` | `DiagnosticadorCognitivo` |
| `Actions` | `AcaoCorretiva`, `PlanoAcao` and their dictionary forms |
| `Fill` | placeholder substitution in commands |
| `Hotfix` | `GeradorHotfix` |
| `Refactor` | `MotorRefatoracao` |
| `Redesign` | `ProjetistaEvolutivo` |
| `Fitness` | `_avaliar_plano` |
| `Variation` | `_cruzar`, `_mutar` |
| `Genetic` | `otimizar_plano` |
| `Store` | second-generation `GeradorAcoes` (plan store) |
| `Events` | `EventoSistema` and its dictionary form |
| `Projection` | `ProjetorTemporal` |
| `Observability` | `InterfaceControleAdaptativa`, `Observabilidade4D` bookkeeping, `gerar_relatorio` counters |
| `Kube` | the `apps/v1` fields the operator uses, client answers |
| `RollbackOperator` | the informer-driven rollback controller |
| `RollbackReconciler` | the `RollbackPolicy` reconciler |

Source paths below are relative to the repository root.

## Model

| member | source | states |
|---|---|---|
| Sorting.SortByAscending | src/diagnostico/diagnostico.py:210 | Python's `sort` by a key leaves the list in key order and keeps its length (also line 1121) |
| Sorting.SortByPermutes | src/diagnostico/diagnostico.py:210 | the sort returns a permutation of its input (also line 1121) |
| Sorting.SortByStable | src/diagnostico/diagnostico.py:210 | the sort is stable: elements with equal keys keep their input order (also line 1121) |
| Sorting.SortBySorted | src/diagnostico/diagnostico.py:210 | sorting a list already in key order changes nothing (also line 310) |
| Dicts.Put | src/diagnostico/diagnostico.py:1072 | `d[k] = v`: afterwards `k` finds `v` and every other key finds what it found before |
| Dicts.PutKeys | src/diagnostico/diagnostico.py:1072 | assignment keeps the key order and appends a new key at the end |
| Dicts.PutTwice | src/diagnostico/diagnostico.py:1072 | a second assignment to the same key overwrites the first |
| Dicts.Update | src/monitoramento/monitoramento.py:718 | `d.update(e)` holds the keys of both; a key absent from `e` keeps its old value |
| Dicts.ValuesOf | src/gerador_acoes/gerador_acoes.py:828 | `d.values()` lists the values in insertion order |
| Seqs.Newest | src/diagnostico/diagnostico.py:180 | a `deque(maxlen=cap)` holds the newest `cap` of the elements appended, in order (also line 1049) |
| Seqs.NewestAppend | src/diagnostico/diagnostico.py:180-243 | appending to a bounded deque batch by batch keeps the newest elements overall |
| Seqs.PyLast | src/diagnostico/diagnostico.py:280 | the slice `s[-n:]` is the last n elements, and the whole list for n = 0 or n beyond its length |
| Text.Trunc | src/diagnostico/diagnostico.py:1087 | `int(x)` on a float truncates toward zero |
| Text.NatTextRoundTrip | src/diagnostico/diagnostico.py:1087 | the decimal rendering of a number reads back as that number, so distinct numbers render differently |
| Text.ReplaceAbsent | src/gerador_acoes/gerador_acoes.py:271-278 | `str.replace` leaves a string without the pattern unchanged |
| Text.ReplaceFront | src/gerador_acoes/gerador_acoes.py:271-278 | `str.replace` replaces an occurrence at the front and continues after it |
| Values.StrListRoundTrip | src/gerador_acoes/gerador_acoes.py:68-86 | a list of strings written to a dictionary reads back as itself |
| Values.RealDictRoundTrip | src/gerador_acoes/gerador_acoes.py:69-87 | a dictionary of floats written to a dictionary reads back as itself |
| Values.StrDictRoundTrip | src/monitoramento/monitoramento.py:57-73 | a dictionary of strings written to a dictionary reads back as itself |
| Metric.RoundTrip | src/monitoramento/monitoramento.py:48-77 | `from_dict(to_dict(m))` gives back `m` |
| Metric.OptionalRoundTrip | src/monitoramento/monitoramento.py:56-75 | the four optional fields read back from the serialised dictionary as they were written |
| Metric.FromParts | src/monitoramento/monitoramento.py:63-77 | `from_dict` succeeds on a dictionary whose required fields are valid, and is the record of the required fields with the optional ones read over it |
| Metric.RequiredOf | src/monitoramento/monitoramento.py:66-71 | a dictionary that starts with the six required fields reads them back |
| Metric.OptionalDefaults | src/monitoramento/monitoramento.py:72-75 | without the optional keys, tags, metadata and context are empty and the confidence is 1.0 |
| Metric.Defaults | src/monitoramento/monitoramento.py:42-77 | a dictionary with only the required fields reads back as the record with the documented defaults |
| Metric.MissingFieldFails | src/monitoramento/monitoramento.py:66-71 | a dictionary missing one of the six required fields is refused (`KeyError`) |
| Values.ScalarsOnly | src/gerador_acoes/gerador_acoes.py:275-279 | the kept context entries are exactly those whose value is a str, int, float or bool, in order |
| Stats.SortedSamples | src/monitoramento/monitoramento.py:565 | sorting the window's values keeps their number and every element is one of them |
| Stats.MedianBounds | src/monitoramento/monitoramento.py:565 | the median lies between the smallest and the largest value |
| Stats.SummaryProperties | src/monitoramento/monitoramento.py:538-571 | an empty window has no summary; otherwise the count is the number of values, mean and median lie between min and max, every value lies between min and max, and one value has deviation 0 |
| Aggregation.Recent | src/monitoramento/monitoramento.py:500-503 | the kept metrics are exactly those still inside the window at that time, in order |
| Aggregation.RecentIdempotent | src/monitoramento/monitoramento.py:500-536 | filtering twice at the same time and window changes nothing more |
| Aggregation.AddToWindows | src/monitoramento/monitoramento.py:499-507 | the loop over the configured windows keeps the set of windows of the key |
| Aggregation.AddStep | src/monitoramento/monitoramento.py:499-507 | each turn of the window loop rewrites one more configured window |
| Aggregation.EmptyWindows | src/monitoramento/monitoramento.py:496-497 | a new key has exactly the configured windows, all empty |
| Aggregation.AddToWindowsEach | src/monitoramento/monitoramento.py:499-507 | every configured window ends up holding its previous metrics still inside it, followed by the new metric; other windows are untouched |
| Aggregation.AddedWindowsRecent | src/monitoramento/monitoramento.py:499-507 | every metric a window holds after an addition is the new one or one still inside that window |
| Aggregation.TemporalAggregator.constructor | src/monitoramento/monitoramento.py:482-486 | the windows are the given ones, or 60, 300, 900 and 3600 s when none are given; no metric is stored |
| Aggregation.TemporalAggregator.AdicionarMetrica | src/monitoramento/monitoramento.py:488-511 | a new `dimensao:nome` key starts with every window empty; each window drops what fell out of it and receives the metric; other keys are untouched |
| Aggregation.TemporalAggregator.ObterMetricasJanela | src/monitoramento/monitoramento.py:513-536 | an unknown key or window gives []; otherwise only stored metrics still inside the window are returned |
| Aggregation.Valores | src/monitoramento/monitoramento.py:562-598 | one value per metric, in order |
| Aggregation.Variance | src/monitoramento/monitoramento.py:613 | `np.var` is never negative |
| Aggregation.Mse | src/monitoramento/monitoramento.py:609-610 | the mean squared error of the fit is never negative |
| Aggregation.NonNegativeMean | src/monitoramento/monitoramento.py:610-613 | the mean of non-negative values is non-negative |
| Aggregation.TrendProperties | src/monitoramento/monitoramento.py:573-642 | fewer than three samples is "estavel" with slope and confidence 0; otherwise "estavel" exactly when the slope is below 0.001 in magnitude or R² below 0.3, else growing or shrinking by the slope's sign; the confidence is at most 1 and 0 for constant values; the sample count is reported |
| Aggregation.RSquaredAtMostOne | src/monitoramento/monitoramento.py:616 | R² never exceeds 1 |
| Collectors.ThroughputCollector.constructor | src/monitoramento/monitoramento.py:187-192 | the history is empty, the counter 0 and the last timestamp the clock reading |
| Collectors.ThroughputCollector.RegistrarOperacao | src/monitoramento/monitoramento.py:194-196 | the operation count grows by `quantidade`; nothing else changes |
| Collectors.ThroughputCollector.Coletar | src/monitoramento/monitoramento.py:198-233 | with no time elapsed nothing happens and [] is returned; a zero-length window raises before any reset; otherwise the interval's rate enters the bounded history, the instantaneous and moving-average metrics are emitted, the counter restarts and the timestamp advances |
| Collectors.AllTo | src/monitoramento/monitoramento.py:246-247 | `{cat: v for cat in cats}` has exactly the categories as distinct keys, each with value `v` |
| Collectors.PutValues | src/monitoramento/monitoramento.py:255-258 | assigning a value keeps every value of the dictionary equal to it when all were |
| Collectors.ErrorCollector.constructor | src/monitoramento/monitoramento.py:244-249 | the categories are the given ones, or "geral"; every count is 0 and every example list empty |
| Collectors.ErrorCollector.RegistrarErro | src/monitoramento/monitoramento.py:251-260 | an unknown category is created at the end of both dictionaries; the category's count grows by one; a non-empty context is kept as an example |
| Collectors.ErrorCollector.Coletar | src/monitoramento/monitoramento.py:262-291 | one metric per category in dictionary order whose value is the count; afterwards every count is 0 and every example list empty, the categories kept |
| Collectors.Zerar | src/monitoramento/monitoramento.py:268-289 | the reset loop emits the category metrics and zeroes each count and example list in place |
| Collectors.ErrorMetrics | src/monitoramento/monitoramento.py:268-286 | one metric per category, in dictionary order, carrying that category's count |
| Collectors.Reset | src/monitoramento/monitoramento.py:288-289 | every category kept, every value set back |
| Collectors.KeysAlike | src/monitoramento/monitoramento.py:246-257 | the two dictionaries of a collector have the same key at every position |
| Collectors.ResetDistinct | src/monitoramento/monitoramento.py:288-289 | resetting every value of a dictionary with distinct keys leaves its keys distinct |
| Collectors.ResetKeeps | src/monitoramento/monitoramento.py:288-289 | a reset keeps the keys of both dictionaries in step and brings the total count to 0 |
| Collectors.RegisterKeeps | src/monitoramento/monitoramento.py:255-258 | a registration keeps the keys of both dictionaries in step and changes the total by the category's change |
| Collectors.CollectedTotal | src/monitoramento/monitoramento.py:262-291 | the values one collection emits add up to the errors registered since the previous collection |
| Collectors.SameKeys | src/monitoramento/monitoramento.py:246-247 | both dictionaries start with the same keys |
| Collectors.AllToKeys | src/monitoramento/monitoramento.py:246-247 | the keys of `{cat: v for cat in cats}` are the categories without repeats, in first-occurrence order |
| Collectors.SumZero | src/monitoramento/monitoramento.py:288-289 | a dictionary of zero counts totals 0 |
| Collectors.LatencyCollector.constructor | src/monitoramento/monitoramento.py:301-305 | the percentiles are the given ones, or 50, 90, 95 and 99; no measurement is stored |
| Collectors.LatencyCollector.RegistrarLatencia | src/monitoramento/monitoramento.py:307-310 | one measurement, with its context or {}, is appended |
| Collectors.LatencyCollector.Coletar | src/monitoramento/monitoramento.py:312-366 | nothing without measurements; a configured percentile outside [0, 100] raises numpy's `ValueError` at line 328 with nothing emitted and the measurements kept; otherwise the mean, the median and one metric per configured percentile, in order, after which the measurements are cleared |
| Collectors.Readings | src/monitoramento/monitoramento.py:321 | one value per measurement, in order |
| Context.ContextProcessor.constructor | src/monitoramento/monitoramento.py:652-656 | no global context and no processors; the global context has distinct keys |
| Context.ContextProcessor.AdicionarContextoGlobal | src/monitoramento/monitoramento.py:658-667 | the global context maps the key to the value, in place if present, appended otherwise, and keeps distinct keys; processors unchanged |
| Context.ContextProcessor.RegistrarProcessador | src/monitoramento/monitoramento.py:669-682 | the processor is appended to its dimension's list; the global context is unchanged |
| Context.ContextProcessor.Processar | src/monitoramento/monitoramento.py:684-722 | the result is a copy of the metric whose context gets every global key it lacks and then the non-empty outputs of its dimension's processors, in order; failing processors are skipped; after the global step a key of the metric's own context keeps its value and a missing key takes the global value |
| Context.AddGlobalsGet | src/monitoramento/monitoramento.py:707-709 | global values fill only the gaps: a key of the metric's own context keeps its value, a missing key takes the global value |
| Context.ProcessorsKeepOthers | src/monitoramento/monitoramento.py:712-719 | keys no processor returned keep the value the global step gave them |
| Context.LastProcessorWins | src/monitoramento/monitoramento.py:712-719 | the last processor that returns a key decides its value |
| Context.UpdateGet | src/monitoramento/monitoramento.py:717 | after `dict.update`, a key of the update has the update's value |
| Context.ProcessedFields | src/monitoramento/monitoramento.py:695-704 | the processed metric keeps identity, measurement and confidence, and has empty tags and metadata |
| Context.StreamAnalyzer.constructor | src/monitoramento/monitoramento.py:733-738 | no windows and no callbacks |
| Context.StreamAnalyzer.RegistrarCallback | src/monitoramento/monitoramento.py:740-753 | the dimension has one more callback; windows unchanged |
| Context.StreamAnalyzer.ProcessarMetrica | src/monitoramento/monitoramento.py:755-779 | the metric enters its dimension's window, which keeps the newest `tamanho_janela`; each of the dimension's callbacks is handed the window as it now is |
| Context.StreamAnalyzer.ObterJanela | src/monitoramento/monitoramento.py:781-795 | [] for a dimension never seen, else its window |
| Context.WindowNewest | src/monitoramento/monitoramento.py:770 | the bounded window keeps the newest metrics in arrival order, however many arrived, and never more than its size |
| Context.GroupByName | src/monitoramento/monitoramento.py:812-817 | grouping by name gives distinct names, each with at least one metric |
| Context.PutNonEmpty | src/monitoramento/monitoramento.py:814-817 | appending keeps every group non-empty |
| Context.GroupByNameSizes | src/monitoramento/monitoramento.py:812-817 | the per-name groups add up to the window's length, and each group holds only metrics of its own name from the window |
| Context.GroupStats | src/monitoramento/monitoramento.py:822-830 | a group's count is its number of metrics |
| Context.StatsOf | src/monitoramento/monitoramento.py:819-830 | one entry per group, in group order, with that group's statistics |
| Context.WindowStatsCounts | src/monitoramento/monitoramento.py:797-832 | the per-name counts add up to the window's length; an empty window gives {} |
| Context.StatsTotal | src/monitoramento/monitoramento.py:819-830 | the counts of the statistics equal the sizes of the groups |
| BasicMonitoring.UniformBetween | src/monitoramento.py:28-34 | `random.uniform(a, b)` built on a draw in [0, 1] lies between `a` and `b` |
| BasicMonitoring.SampleInRanges | src/monitoramento.py:27-36 | a sample built from six draws has throughput in [100, 1000], error rate in [0, 5], latency in [10, 100] and cpu, memoria, disco in [20, 80], [30, 70], [10, 50], in that order |
| BasicMonitoring.TrendProperties | src/monitoramento.py:46-59 | a history shorter than the window gives `{}`; a zero window raises; otherwise each trend is the mean of that field over the newest `janela` samples and lies between their minimum and maximum |
| BasicMonitoring.FlagsProperties | src/monitoramento.py:61-74 | an empty history gives `{}`; otherwise each flag is raised exactly when the newest sample exceeds 800 ops/s, 3 % errors, 80 ms, or 70 % on some resource |
| BasicMonitoring.Monitoramento.constructor | src/monitoramento.py:19-21 | the history starts empty |
| BasicMonitoring.Monitoramento.ColetarMetricas | src/monitoramento.py:23-40 | the returned sample is the one built from the draws, it is appended to the history, and it lies in the sampling ranges |
| BasicMonitoring.RoundBetween | src/monitoramento.py:99 | rounding to the nearest integer, ties to even, stays between integer bounds of its argument |
| BasicMonitoring.Round2Between | src/monitoramento.py:99 | `round(x, 2)` of a value between two multiples of 0.01 lies between them and is a whole number of hundredths |
| BasicMonitoring.Round2Cents | src/monitoramento.py:99 | `round(x, 2)` times 100 is the integer nearest to `100 x` |
| BasicMonitoring.CentsBetween | src/monitoramento.py:99 | a whole number `n` of hundredths between `lo` and `hi` lies between `lo/100` and `hi/100` |
| BasicMonitoring.GerarMetricas | src/monitoramento.py:84-106 | the loop builds exactly the records `Registros` describes, one per entry of `NOMES` |
| BasicMonitoring.RegistrosProperties | src/monitoramento.py:77-106 | one record per name in `NOMES` order, with its dimension and unit, the same timestamp, id `<nome>_<int(timestamp)>`, empty tags and metadata, and a value rounded to two places inside that name's range |
| BasicDiagnosis.ScoreBetween | src/diagnostico.py:16-42 | the weights add up to 1, so normalised values within [lo, hi] give a score within [lo, hi] |
| BasicDiagnosis.SampleScore | src/diagnostico.py:23-42 | a sample from the monitor's ranges normalises every value into [0, 1], so its score lies in [0, 1] |
| BasicDiagnosis.TipoMatchesFlags | src/diagnostico.py:67-77 | the named anomaly is the first flag the monitor raises for the same sample, in the order error rate, latency, throughput, resources; "normal" exactly when it raises none |
| BasicDiagnosis.RecomendacoesCount | src/diagnostico.py:79-108 | each of the four anomalies gets three recommendations, any other type none |
| BasicDiagnosis.GerarDiagnosticoProperties | src/diagnostico.py:44-65 | an anomaly is reported exactly when the score exceeds 0.7; the severity is the score capped at 1, so a reported anomaly has severity above 0.7; there are recommendations exactly when the type is not "normal" |
| BasicActions.FromEntries | src/gerador_acoes.py:62-69 | one action per table row of a horizon |
| BasicActions.Ajustadas | src/gerador_acoes.py:71-74 | the severity adjustment keeps the number of actions |
| BasicActions.Acrescentar | src/gerador_acoes.py:62-69 | the inner loop appends exactly the actions of one horizon's rows, in table order |
| BasicActions.GerarAcoes | src/gerador_acoes.py:51-76 | the result is the table's actions for the diagnosed type, horizon by horizon, each priority adjusted for the severity |
| BasicActions.AjustarPrioridades | src/gerador_acoes.py:71-74 | the loop adjusts every action's priority as `Ajustadas` describes |
| BasicActions.GeradasUnknown | src/gerador_acoes.py:16-62 | only "erro_sistema" and "latencia_alta" are in the table; any other type gets no actions |
| BasicActions.GeradasKnown | src/gerador_acoes.py:16-76 | a listed type gets three hotfixes, then three refactorings, then two redesigns, exactly as listed, eight actions with priorities between 1 and 3 |
| BasicActions.GeneratedThree | src/gerador_acoes.py:62-74 | a table listing hotfix, refatoracao and redesign in that order yields their rows in that order |
| BasicActions.AjustadasProperties | src/gerador_acoes.py:71-74 | only the priority changes; above severity 0.8 it becomes `min(p + 1, 3)`, otherwise it is kept, so priorities in 1..3 stay in 1..3 |
| BasicActions.Ordem | src/gerador_acoes.py:80 | a horizon's ordinal is its position in hotfix, refatoracao, redesign; any other type has none (`KeyError`) |
| BasicActions.ChaveOrder | src/gerador_acoes.py:81 | comparing the sort key is comparing `(prioridade, tipo_ordem)` lexicographically, in both directions |
| BasicActions.PriorizarAcoesProperties | src/gerador_acoes.py:78-82 | ordering succeeds exactly when every action's horizon is known; then the result is a permutation, ordered by priority and then horizon, keeping the given order of actions that tie on both |
| RollbackOperator.ConditionsPassIff | kubernetes/operators/rollback-operator/controller/rollback_controller.go:231-243 | the first loop passes exactly when no Progressing condition is other than True and no ReplicaFailure condition is True |
| RollbackOperator.NotStalledIff | kubernetes/operators/rollback-operator/controller/rollback_controller.go:248-255 | the second loop passes exactly when no Progressing=True condition was last updated more than ten minutes ago |
| RollbackOperator.IsDeploymentHealthyIff | kubernetes/operators/rollback-operator/controller/rollback_controller.go:229-259 | a deployment is healthy exactly when no condition fails and, if fewer replicas are available than desired, no progressing condition is stalled |
| RollbackOperator.StaysUnhealthy | kubernetes/operators/rollback-operator/controller/rollback_controller.go:246-255 | an unhealthy deployment stays unhealthy at any later time if nothing else changes |
| RollbackOperator.PreviousRevisionIsMax | kubernetes/operators/rollback-operator/controller/rollback_controller.go:280-291 | the previous revision is 0 exactly when no revision is positive and older than the observed generation; otherwise it is the largest such revision of the list |
| RollbackOperator.FindPreviousRevision | kubernetes/operators/rollback-operator/controller/rollback_controller.go:281-287 | the revision loop computes `PreviousRevision` |
| RollbackOperator.TargetReplicaSetIsFirst | kubernetes/operators/rollback-operator/controller/rollback_controller.go:317-329 | a target is found exactly when some ReplicaSet's revision annotation is the revision in decimal, and it is the first such ReplicaSet |
| RollbackOperator.HasRevisionExactly | kubernetes/operators/rollback-operator/controller/rollback_controller.go:321 | the annotation test of a positive revision matches that revision and no other |
| RollbackOperator.FindTargetReplicaSet | kubernetes/operators/rollback-operator/controller/rollback_controller.go:318-325 | the ReplicaSet loop, which breaks at the first match, computes `TargetReplicaSet` |
| RollbackOperator.WithRollbackProperties | kubernetes/operators/rollback-operator/controller/rollback_controller.go:331-339 | the rewrite installs the target's pod template, sets the timestamp and revision annotations (creating the map when nil), keeps every other annotation and changes nothing else |
| RollbackOperator.RollbackProperties | kubernetes/operators/rollback-operator/controller/rollback_controller.go:262-340 | a rollback is prepared exactly when both listings succeed, there are at least two revisions, one is eligible and some ReplicaSet carries the largest eligible one; the result is the deployment rewritten to that ReplicaSet; each failure carries its own message |
| RollbackOperator.HealthOutcomeProperties | kubernetes/operators/rollback-operator/controller/rollback_controller.go:210-226 | a healthy deployment or one at generation 1 or less is left alone; otherwise an update is sent exactly when the rollback can be prepared, and it is the rewritten deployment |
| RollbackOperator.RollbackDeployment | kubernetes/operators/rollback-operator/controller/rollback_controller.go:262-350 | the method returns `RollbackOutcome`: the prepared update, its failure, or the update's error |
| RollbackOperator.CheckDeploymentHealth | kubernetes/operators/rollback-operator/controller/rollback_controller.go:210-226 | the method returns `HealthOutcome` |
| RollbackOperator.SlashAt | kubernetes/operators/rollback-operator/controller/rollback_controller.go:158 | the position found is the first `/` of the key; none means the key has no `/` |
| RollbackOperator.SplitKeyRoundTrip | kubernetes/operators/rollback-operator/controller/rollback_controller.go:158-200 | splitting the key built from a namespace and a name without `/` gives them back |
| RollbackOperator.SplitKeyFails | kubernetes/operators/rollback-operator/controller/rollback_controller.go:158-162 | splitting a key fails exactly when it contains two or more `/` |
| RollbackOperator.WorkQueue.constructor | kubernetes/operators/rollback-operator/controller/rollback_controller.go:59 | a new queue has nothing pending, no failures and is not shut down |
| RollbackOperator.WorkQueue.Add | kubernetes/operators/rollback-operator/controller/rollback_controller.go:206 | an item joins the end of the queue unless it is already waiting; failures are unchanged |
| RollbackOperator.WorkQueue.Get | kubernetes/operators/rollback-operator/controller/rollback_controller.go:125-129 | the first waiting item is taken off the queue; an empty, shut-down queue answers shutdown |
| RollbackOperator.WorkQueue.Forget | kubernetes/operators/rollback-operator/controller/rollback_controller.go:143-152 | the item's failure count is cleared and nothing else changes |
| RollbackOperator.WorkQueue.AddRateLimited | kubernetes/operators/rollback-operator/controller/rollback_controller.go:138 | the item's failure count grows by one and the item is queued again |
| RollbackOperator.SyncProperties | kubernetes/operators/rollback-operator/controller/rollback_controller.go:148-178 | a non-string item, an invalid key and a deployment that is not found give no error and no update; any other failure to get the deployment is returned; a fetched deployment goes to the health check |
| RollbackOperator.RollbackController.constructor | kubernetes/operators/rollback-operator/controller/rollback_controller.go:45-85 | the controller starts with a fresh, empty queue |
| RollbackOperator.RollbackController.HandleObject | kubernetes/operators/rollback-operator/controller/rollback_controller.go:181-207 | the object's `namespace/name` key is queued |
| RollbackOperator.RollbackController.SyncHandler | kubernetes/operators/rollback-operator/controller/rollback_controller.go:148-178 | the result is `Sync` of the item; a non-string item's failures are forgotten; the queue is otherwise unchanged |
| RollbackOperator.RollbackController.ProcessNextWorkItem | kubernetes/operators/rollback-operator/controller/rollback_controller.go:124-145 | false on a shut-down, empty queue; otherwise the next item is synchronised, re-queued with one more failure when that fails, and forgotten when not |
| RollbackReconciler.RollbackPolicy.constructor | kubernetes/operators/rollback-operator/controller/controllers/rollback_controller.go:41-42 | a policy object holds the spec and status it was read with |
| RollbackReconciler.NeedsRollbackIff | kubernetes/operators/rollback-operator/controller/controllers/rollback_controller.go:75-89 | a rollback is needed exactly when some condition holds: "AvailableReplicas" with "LessThan" and no available replica, or "UnavailableReplicas" with "GreaterThan" and some unavailable replica |
| RollbackReconciler.EvaluateConditions | kubernetes/operators/rollback-operator/controller/controllers/rollback_controller.go:75-89 | the condition loop computes `NeedsRollback` |
| RollbackReconciler.ScanInit | kubernetes/operators/rollback-operator/controller/controllers/rollback_controller.go:69-107 | a pass without error came through its earlier turns without error, and its last turn appends the key, records the generation and, when due, the rollback and the update |
| RollbackReconciler.ScanMonitored | kubernetes/operators/rollback-operator/controller/controllers/rollback_controller.go:65-71 | the monitored resources are the listed deployments' `namespace/name` keys, in order |
| RollbackReconciler.ScanCurrentKeys | kubernetes/operators/rollback-operator/controller/controllers/rollback_controller.go:66-72 | a generation is recorded for exactly the listed keys |
| RollbackReconciler.ScanCurrentValues | kubernetes/operators/rollback-operator/controller/controllers/rollback_controller.go:72 | each key records the generation of the last listed deployment with that key |
| RollbackReconciler.ScanRollbacks | kubernetes/operators/rollback-operator/controller/controllers/rollback_controller.go:67-105 | a rollback revision is recorded for exactly the keys of deployments that need one while a target image is named |
| RollbackReconciler.ScanUpdated | kubernetes/operators/rollback-operator/controller/controllers/rollback_controller.go:97-103 | the deployments sent to the server are exactly those that roll back, with the new image, in order; each has a first container |
| RollbackReconciler.ScanProperties | kubernetes/operators/rollback-operator/controller/controllers/rollback_controller.go:64-107 | a completed pass lists every key in order, records the generations with the last listing winning, records rollbacks for exactly the deployments that roll back, and updates exactly those |
| RollbackReconciler.NoTargetNoRollback | kubernetes/operators/rollback-operator/controller/controllers/rollback_controller.go:97 | without a target image no deployment is rewritten |
| RollbackReconciler.WithImageProperties | kubernetes/operators/rollback-operator/controller/controllers/rollback_controller.go:99 | the rewritten deployment differs from the listed one in the first container's image only |
| RollbackReconciler.ScanDeployments | kubernetes/operators/rollback-operator/controller/controllers/rollback_controller.go:69-107 | the deployment loop, which returns at the first failure, computes `Scan` |
| RollbackReconciler.FailureSticks | kubernetes/operators/rollback-operator/controller/controllers/rollback_controller.go:100-103 | once the pass has failed, later deployments change nothing |
| RollbackReconciler.Reconcile | kubernetes/operators/rollback-operator/controller/controllers/rollback_controller.go:36-127 | a vanished policy ends quietly; any other read, list, update or status failure is returned and leaves the stored status unchanged; a completed pass stores the rebuilt collections, the time, "Succeeded", the message and the count plus one, and requeues after the check interval, 300 s when unset |
| Events.RequiredOf | src/observabilidade/observabilidade.py:75-84 | a dictionary that starts with the six required fields reads them back with empty `dados` |
| Events.RoundTrip | src/observabilidade/observabilidade.py:62-85 | `from_dict(to_dict(e))` gives back `e` |
| Events.DefaultData | src/observabilidade/observabilidade.py:84 | a dictionary with only the six required fields reads back with empty `dados` |
| Events.MissingFieldFails | src/observabilidade/observabilidade.py:77-83 | a dictionary missing one of the six required fields is refused (`KeyError`) |
| Observability.WithLatestProperties | src/observabilidade/observabilidade.py:1595-1617 | after several metrics, each series' key holds the last metric of that series and a key no metric has keeps its entry; keys stay unique |
| Observability.MetricsStep | src/observabilidade/observabilidade.py:1616-1617 | one more metric extends the latest-metric map and the projector history by one step |
| Observability.Interface.constructor | src/observabilidade/observabilidade.py:1062-1081 | all recent collections empty, with a fresh projector with no history |
| Observability.Interface.AdicionarMetrica | src/observabilidade/observabilidade.py:1449-1462 | the metric becomes the latest of its `dimensao:nome` series and joins the projector's history; the deques are unchanged |
| Observability.Interface.AdicionarEvento | src/observabilidade/observabilidade.py:1464-1472 | the event deque keeps the newest 1000 events |
| Observability.Interface.AdicionarDiagnostico | src/observabilidade/observabilidade.py:1474-1495 | the diagnosis joins its deque of 100 and its event, with severity "warning" exactly when anomalies were detected, joins the event deque |
| Observability.Interface.AdicionarPlano | src/observabilidade/observabilidade.py:1497-1518 | the plan joins its deque of 100 and its "plano_acao" event joins the event deque |
| Observability.Interface.AtualizarStatusPlano | src/observabilidade/observabilidade.py:1520-1546 | the first plan with the id gets the status and exactly one status event is recorded; an unknown id changes nothing |
| Observability.Observabilidade.constructor | src/observabilidade/observabilidade.py:1561-1571 | all recent collections empty, with a fresh interface and projector |
| Observability.Observabilidade.RegistrarMetrica | src/observabilidade/observabilidade.py:1583-1599 | the metric is the latest of its series on both sides and joins both projectors' histories; no event is recorded |
| Observability.Observabilidade.RegistrarMetricas | src/observabilidade/observabilidade.py:1616-1617 | registering the diagnosis's metrics one by one folds them into the latest-metric map and the histories |
| Observability.Observabilidade.RegistrarEvento | src/observabilidade/observabilidade.py:1601-1610 | the event joins both event deques |
| Observability.Observabilidade.RegistrarDiagnostico | src/observabilidade/observabilidade.py:1612-1638 | the diagnosis joins both deques, its metrics are registered, and its event is recorded once here and twice in the interface |
| Observability.Observabilidade.RegistrarPlano | src/observabilidade/observabilidade.py:1640-1662 | the plan joins both deques and its event is recorded once here and twice in the interface |
| Observability.Observabilidade.AtualizarStatusPlano | src/observabilidade/observabilidade.py:1664-1693 | the first plan with the id gets the status; one event is recorded here and two in the interface; an unknown id changes nothing |
| Observability.Observabilidade.GerarRelatorio | src/observabilidade/observabilidade.py:1906-2010 | the report counts what `Report` describes for the period |
| Observability.SinceProperties | src/observabilidade/observabilidade.py:1921-1923 | the period filter keeps exactly the elements from the start of the period on, in order |
| Observability.ContarEventos | src/observabilidade/observabilidade.py:1950-1958 | the event loop counts by type and by severity as `Tally` does |
| Observability.ContarIds | src/observabilidade/observabilidade.py:1963-1967 | the inner loop counts one diagnosis's anomalies by id |
| Observability.ContarAnomalias | src/observabilidade/observabilidade.py:1961-1967 | the diagnosis loop counts every anomaly by id |
| Observability.ContarTipos | src/observabilidade/observabilidade.py:1974-1975 | the inner loop counts one plan's actions by type |
| Observability.ContarPlanos | src/observabilidade/observabilidade.py:1970-1979 | the plan loop counts actions by type, starting from the three horizons at 0, and plans by status |
| Observability.AllAnomalyIdsLength | src/observabilidade/observabilidade.py:1963-1967 | one id is counted per detected anomaly |
| Observability.AllActionTypesProperties | src/observabilidade/observabilidade.py:1970-1975 | every counted action type is one of the three horizons, one per action |
| Observability.ReportEventCounts | src/observabilidade/observabilidade.py:1947-1958 | the event counters each add up to the number of events of the period and count each type and severity by its occurrences |
| Observability.NoActionsProperties | src/observabilidade/observabilidade.py:1970 | the action counter starts with the three horizons as distinct keys, all 0 |
| Observability.ReportActionCounts | src/observabilidade/observabilidade.py:1970-1975 | the action counter has exactly the three horizons, in order, and adds up to the number of actions of the plans of the period |
| Observability.ReportPlanCounts | src/observabilidade/observabilidade.py:1961-1979 | the status counter adds up to the number of plans of the period, and the anomaly counter to the number of anomalies of its diagnoses |
| Observability.PerDimensionProperties | src/observabilidade/observabilidade.py:1987-1990 | every latest metric is counted, and `por_dimensao` has a positive count for exactly the dimensions present |
| Observability.OccursPositive | src/observabilidade/observabilidade.py:1989 | a present key occurs at least once |
| Counters.BumpCounts | src/observabilidade/observabilidade.py:1952-1954 | one counting step adds one to the counted key, leaves every other count, and makes the key present |
| Counters.TallyCounts | src/observabilidade/observabilidade.py:1950-1958 | counting adds to each key's count its number of occurrences; no other key appears |
| Counters.TallyTotal | src/observabilidade/observabilidade.py:1950-1958 | the counts grow in total by the number of counted keys, with no key repeated |
| Counters.TallyKeys | src/observabilidade/observabilidade.py:1950-1958 | counting keeps every present key in place and appends new keys in order of first occurrence |
| Counters.TallyConcat | src/observabilidade/observabilidade.py:1961-1967 | counting two lists one after the other is counting their concatenation |
| Counters.TallyKnownKeys | src/observabilidade/observabilidade.py:1970-1975 | counting only keys already present keeps the keys and their order |
| Counters.BumpKnownKey | src/observabilidade/observabilidade.py:1975 | counting a present key keeps the keys |
| Counters.Contar | src/observabilidade/observabilidade.py:1950-1958 | the counting loop computes `Tally` |
| Projection.WithPointOrdered | src/observabilidade/observabilidade.py:637-645 | after a point is added the series is ordered by timestamp, holds at most 1000 points and is the latest part of the sorted series, so only points no later than every kept one are dropped |
| Projection.WithPointContents | src/observabilidade/observabilidade.py:637-645 | nothing but the new point joins the series |
| Projection.WithPointInserts | src/observabilidade/observabilidade.py:637-640 | sorting an ordered series with the new point appended inserts it after every point not later than it (a stable sort) |
| Projection.WithPointKept | src/observabilidade/observabilidade.py:637-645 | a series stays ordered and bounded when a point is added |
| Projection.WithMetricProperties | src/observabilidade/observabilidade.py:624-645 | adding a metric keeps every series ordered and bounded, gives the metric's `dimensao:nome` key a series, and leaves every other series as it was |
| Projection.WithMetricsProperties | src/observabilidade/observabilidade.py:624-645 | however many metrics are added, every series stays ordered and bounded and no series is lost |
| Projection.TimeAt | src/observabilidade/observabilidade.py:794 | the i-th projection instant is `i + 1` steps of `horizonte / num_pontos` after the last observation |
| Projection.EndsAt | src/observabilidade/observabilidade.py:794 | the first instant is one step after the last observation and the last exactly `horizonte` after it |
| Projection.SpacedAt | src/observabilidade/observabilidade.py:794 | consecutive instants are one step apart |
| Projection.AfterLast | src/observabilidade/observabilidade.py:794 | with a positive horizon every instant lies after the last observation |
| Projection.OrderedAt | src/observabilidade/observabilidade.py:794 | with a positive horizon the instants increase strictly |
| Projection.ProjectionTimesSpacing | src/observabilidade/observabilidade.py:793-794 | there are `num_pontos` instants (none for a count not above zero), evenly spaced by `horizonte / num_pontos`, the first one step after the last observation and the last exactly `horizonte` after it |
| Projection.ProjectionTimesIncreasing | src/observabilidade/observabilidade.py:793-794 | with a positive horizon the instants increase strictly and all lie after the last observation |
| Projection.LinearValues | src/observabilidade/observabilidade.py:718-730 | one value per instant, `slope * t + intercept` |
| Projection.ProjectSeriesProperties | src/observabilidade/observabilidade.py:754-831 | a projection fails exactly when the series is unknown or has fewer than two points; otherwise it starts from the series' last point, projects one value per instant and carries no impact yet |
| Projection.ScaledAllProperties | src/observabilidade/observabilidade.py:866-927 | both branches of the scaling are `v * (1 - impacto)`: no impact leaves the values as they are, and an impact in [0, 1] keeps a non-negative value between 0 and itself |
| Projection.ScaledBetween | src/observabilidade/observabilidade.py:871-872 | scaling a non-negative value by an impact in [0, 1] keeps it between 0 and itself |
| Projection.ActionImpactProperties | src/observabilidade/observabilidade.py:833-889 | a failed projection is returned as it is; otherwise only the action's impact entry is added, with the action's estimate for the dimension (0 when it has none) and one scaled value per projected value |
| Projection.CombineStep | src/observabilidade/observabilidade.py:904-910 | one combination step multiplies the remaining share by `1 - impacto`, and keeps an impact in [0, 1] in [0, 1] |
| Projection.CombinedImpactBounds | src/observabilidade/observabilidade.py:900-910 | with every estimate in [0, 1] the combined impact stays in [0, 1] |
| Projection.CombinedImpactProduct | src/observabilidade/observabilidade.py:900-910 | with non-negative estimates the combined impact is 1 minus the product of the shares each action leaves, so the actions' order does not matter |
| Projection.PlanImpactProperties | src/observabilidade/observabilidade.py:891-947 | a failed projection or an empty plan is returned as it is; otherwise only the plan's impact entry is added, with the combined impact, the number of actions and one value per projected value scaled by it |
| Projection.ValoresComImpacto | src/observabilidade/observabilidade.py:866-876 | the value loop computes `ScaledAll` |
| Projection.ProjetarImpactoAcao | src/observabilidade/observabilidade.py:833-889 | the method computes `ActionImpact` |
| Projection.ProjetarImpactoPlano | src/observabilidade/observabilidade.py:891-947 | the method computes `PlanImpact` |
| Projection.ProjetorTemporal.constructor | src/observabilidade/observabilidade.py:618-622 | no history |
| Projection.ProjetorTemporal.AdicionarMetrica | src/observabilidade/observabilidade.py:624-645 | the metric's point joins its series, which stays ordered and bounded; no other series changes |
| Projection.ProjetorTemporal.ProjetarMetrica | src/observabilidade/observabilidade.py:754-831 | the projection of the stored series of `dimensao:nome` |
| Projection.MissingStatsImport | src/observabilidade/observabilidade.py:657-668 | as written, `projetar_metrica` agrees with the projection on a missing or short series and raises `NameError` on every series of two points or more, where the projection with the import present succeeds (also lines 774-785) |
| Chaos.Valores | src/diagnostico/diagnostico.py:751 | one value per point, in order |
| Chaos.Deviation | src/diagnostico/diagnostico.py:840 | a relative deviation is never negative |
| Chaos.DeviationsGet | src/diagnostico/diagnostico.py:836-841 | a statistic has a deviation exactly when it is current and its reference exists and is not zero; the deviation is `abs(atual - ref) / abs(ref)` |
| Chaos.DeviationsNonNegative | src/diagnostico/diagnostico.py:836-841 | every deviation is non-negative and belongs to a statistic of the current window |
| Chaos.PutValues | src/diagnostico/diagnostico.py:841 | every value after an assignment is the new value or an old one |
| Chaos.ReconstruirEspacoFase | src/diagnostico/diagnostico.py:619-638 | too short a series gives no points; otherwise one point per start whose last coordinate is still in the series, point `i` being `(s[i], s[i + delay], ..., s[i + (dim-1) delay])` |
| Chaos.Embed | src/diagnostico/diagnostico.py:633-636 | the embedding loop yields one embedded point per start |
| Chaos.EmbeddingCoordinates | src/diagnostico/diagnostico.py:634 | point `a` holds the series values at `a`, `a + delay`, ..., `a + (dim-1) delay`, all inside the series |
| Chaos.Embedded | src/diagnostico/diagnostico.py:634 | an embedded point has `dim` coordinates |
| Chaos.EmbeddedAt | src/diagnostico/diagnostico.py:634 | coordinate `j` of the point that starts at `i` is the series value `j` delays later |
| Chaos.EmbedIndex | src/diagnostico/diagnostico.py:633-634 | every coordinate of every embedded point lies inside the series |
| Chaos.BoundedAppend | src/diagnostico/diagnostico.py:615-617 | capping a series at `2 * janela_analise` keeps every series bounded |
| Chaos.Desvios | src/diagnostico/diagnostico.py:836-841 | the deviation loop computes `Deviations` |
| Chaos.Excede | src/diagnostico/diagnostico.py:844 | the scan reports an anomaly exactly when some deviation exceeds the threshold |
| Chaos.ChaosDetector.constructor | src/diagnostico/diagnostico.py:591-598 | the parameters are stored; no series and no reference |
| Chaos.ChaosDetector.AdicionarPonto | src/diagnostico/diagnostico.py:600-617 | the point is appended to its series, which then keeps its newest `2 * janela_analise` points; references unchanged |
| Chaos.ChaosDetector.CalcularEstatisticasCaoticas | src/diagnostico/diagnostico.py:736-798 | nothing until the series holds a full window |
| Chaos.ChaosDetector.DefinirReferencia | src/diagnostico/diagnostico.py:800-811 | non-empty statistics become the series' reference; otherwise nothing changes |
| Chaos.ChaosDetector.DetectarAnomalia | src/diagnostico/diagnostico.py:813-846 | no verdict without a full window; the first full window only sets the reference; afterwards the deviations from the reference, and an anomaly exactly when one exceeds `limiar`; the verdict, deviations and references are those of `AnomalyStep` on the state before the call |
| Gradients.Shifted | src/diagnostico/diagnostico.py:906-910 | one timestamp per point, relative to the first |
| Gradients.Readings | src/diagnostico/diagnostico.py:907 | one value per point |
| Gradients.CalcularGradiente | src/diagnostico/diagnostico.py:887-920 | fewer than two points give slope 0, r² 0, error 0 and p-value 1; r² is never negative; the regression itself is a total parameter (see Left out) |
| Gradients.Delay | src/diagnostico/diagnostico.py:910 | shifting the clock keeps the number of points |
| Gradients.GradientShiftInvariant | src/diagnostico/diagnostico.py:906-913 | the gradient depends on the timestamps only through their differences: shifting the clock changes nothing |
| Gradients.WindowsFromShape | src/diagnostico/diagnostico.py:955-958 | the k-th window is the `janela` points starting at `i + k * step`, and no further window fits |
| Gradients.WindowsSliding | src/diagnostico/diagnostico.py:955-958 | the windows start at 0, every `sobreposicao` points, `janela` points each, as many as fit |
| Gradients.JanelasDeslizantes | src/diagnostico/diagnostico.py:955-958 | a zero step raises `range`'s `ValueError`; otherwise the loop builds exactly those windows |
| Gradients.SlidingShape | src/diagnostico/diagnostico.py:955-958 | once the series holds a full window at least one window exists, every window has `janela` points, and the first is the oldest `janela` points |
| Gradients.SlideGradient | src/diagnostico/diagnostico.py:962-965 | an empty window raises (division by zero); otherwise its gradient is `_calcular_gradiente` of the window |
| Gradients.SlideTimestampInside | src/diagnostico/diagnostico.py:964 | the mean timestamp of a window lies between its first and last timestamps |
| Gradients.SlideAllSpec | src/diagnostico/diagnostico.py:961-965 | the gradients fail exactly when some window is empty; otherwise there is one per window, in order |
| Gradients.GradientesDeslizantes | src/diagnostico/diagnostico.py:961-965 | the loop computes `SlideAll` |
| Gradients.SlideAllErr | src/diagnostico/diagnostico.py:961-965 | once a prefix fails the whole loop fails with the same error |
| Gradients.WindowsEmpty | src/diagnostico/diagnostico.py:955-965 | over a series holding a full window the gradients fail exactly for a zero window |
| Gradients.NextHistoryBound | src/diagnostico/diagnostico.py:967-978 | the history of a name never exceeds 100 snapshots, ends with the newest sliding gradient, and is unchanged when there is none |
| Gradients.TrendChangeProperties | src/diagnostico/diagnostico.py:1008-1032 | a change is reported only between two fits with r² at least the threshold, with the last r² as confidence; a reversal is named by the new sign; otherwise a change is an acceleration or deceleration of the slope's size by more than half the mean |
| Gradients.TrendChangeMirror | src/diagnostico/diagnostico.py:1016-1032 | mirroring both slopes swaps "crescente" and "decrescente" and leaves every other verdict as it was |
| Gradients.SeriesAppend | src/diagnostico/diagnostico.py:883-885 | capping a series at `10 * janela_analise` keeps every series bounded |
| Gradients.HistoryAppend | src/diagnostico/diagnostico.py:972-978 | recording a gradient keeps every history within 100 |
| Gradients.GradientAnalyzer.constructor | src/diagnostico/diagnostico.py:859-865 | the parameters are stored; no series and no history |
| Gradients.GradientAnalyzer.AdicionarPonto | src/diagnostico/diagnostico.py:867-885 | the point is appended to its series, which then keeps its newest `10 * janela_analise` points |
| Gradients.GradientAnalyzer.CalcularGradientes | src/diagnostico/diagnostico.py:922-991 | nothing before a full window; otherwise the gradients of the newest window, three windows and the whole sorted series, the newest sliding window's gradient recorded in the history, and the acceleration when the last two differ in time; a zero overlap or window raises before the history changes; the answer and histories are those of `GradientStep` on the state before the call |
| Gradients.GradientAnalyzer.DetectarMudancaTendencia | src/diagnostico/diagnostico.py:993-1006 | no verdict ("estavel", 0) before two gradients are recorded |
| Patterns.Relevant | src/diagnostico/diagnostico.py:68 | the relevant metrics are exactly those of the input whose name is a related metric, in order |
| Patterns.Normalize | src/diagnostico/diagnostico.py:76-81 | min-max normalisation yields one value per input value |
| Patterns.CountOutside | src/diagnostico/diagnostico.py:93-99 | the number of out-of-bounds metrics never exceeds the number of relevant metrics |
| Patterns.NoMatchCases | src/diagnostico/diagnostico.py:54-65 | `corresponde` answers (False, 0.0) when the custom detector raises, when a related metric is missing, and when neither the shape nor the limits path applies |
| Patterns.LimitsConfidence | src/diagnostico/diagnostico.py:91-102 | on the limits path the confidence is a share in [0, 1] and the pattern matches exactly when it reaches the threshold |
| Patterns.LimitsShare | src/diagnostico/diagnostico.py:95-102 | the share of out-of-bounds metrics lies in [0, 1] and decides the match against the threshold |
| Patterns.TemporalConfidence | src/diagnostico/diagnostico.py:71-87 | on the shape path the correlation fails exactly when the pattern has fewer than two points; otherwise the confidence is never negative and decides the match |
| Patterns.AnomaliesValue | src/diagnostico/diagnostico.py:130-137 | one serialised entry per detected anomaly |
| Patterns.MetricsValue | src/diagnostico/diagnostico.py:138 | one serialised entry per analysed metric |
| Patterns.Catalogued | src/diagnostico/diagnostico.py:148-152 | reading back keeps at most the anomalies written |
| Patterns.AnomaliesRoundTrip | src/diagnostico/diagnostico.py:130-152 | reading the serialised anomalies back keeps exactly the catalogued ones, replaced by the catalogue's pattern, in order |
| Patterns.MetricsRoundTrip | src/diagnostico/diagnostico.py:138-156 | reading the serialised metrics back gives the metrics |
| Patterns.DiagnosisRoundTrip | src/diagnostico/diagnostico.py:125-167 | `from_dict(to_dict(d))` succeeds and equals `d` except that uncatalogued anomalies are dropped |
| Patterns.DiagnosisFromParts | src/diagnostico/diagnostico.py:146-167 | `from_dict` builds the diagnosis from its required fields and from the optional ones with their defaults |
| Patterns.RequiredRoundTrip | src/diagnostico/diagnostico.py:148-161 | the required fields read back from `to_dict` are the id, timestamp, catalogued anomalies and metrics |
| Patterns.OptionalRoundTrip | src/diagnostico/diagnostico.py:163-166 | the optional fields read back from `to_dict` are the root cause, confidence, recommendations and context |
| Patterns.IdsAndConfidence | src/diagnostico/diagnostico.py:131-136 | each anomaly is written as its pattern id and confidence, in order |
| Patterns.CataloguedIds | src/diagnostico/diagnostico.py:148-152 | every anomaly kept is catalogued, and when the catalogue knows every anomaly the (id, confidence) list is restored in order |
| Rules.Resorted | src/diagnostico/diagnostico.py:210 | re-sorting by priority, highest first, is stable: it yields priority order, a permutation of the rules, keeps equal-priority rules in their previous order, and leaves an ordered list unchanged (also line 310) |
| Rules.SameRules | src/diagnostico/diagnostico.py:210 | every rule of a permutation of the list is a rule of the list (also line 310) |
| Rules.FireEffect | src/diagnostico/diagnostico.py:229-255 | one iteration of `executar`: a rule whose condition or action raises, or whose condition is false, is left unchanged with no record; otherwise its executions grow by one, its successes by one exactly when the action returned a value, its last run is the current time, and one history entry and at most one result are produced |
| Rules.Run | src/diagnostico/diagnostico.py:229-257 | running the rules gives back one rule per rule |
| Rules.RunStep | src/diagnostico/diagnostico.py:229-255 | running one more rule appends its updated rule, its history entry and its result to those of the rules before it |
| Rules.RunEach | src/diagnostico/diagnostico.py:229-255 | each rule's updated state depends on that rule alone; a rule that raises does not stop the rules after it |
| Rules.RunRecords | src/diagnostico/diagnostico.py:237-252 | no result is None; there are as many results as new successes and as many history entries as new executions, each stamped with the current time and holding only the scalar context values |
| Rules.RunKeeps | src/diagnostico/diagnostico.py:229-255 | running the rules keeps their names and order, hence priority order, and keeps successes at most executions |
| Rules.Reprioritised | src/diagnostico/diagnostico.py:302-307 | reweighing keeps one rule per rule |
| Rules.AdjustBounds | src/diagnostico/diagnostico.py:303-307 | only a rule with more than 10 executions changes, and only in priority, which is multiplied by `0.8 + 0.4 * rate`, a factor in [0.8, 1.2] |
| Rules.OptimisedValid | src/diagnostico/diagnostico.py:300-310 | after the optimisation the rules are again in priority order with successes at most executions |
| Rules.AddedValid | src/diagnostico/diagnostico.py:196-210 | adding a fresh rule and re-sorting gives a list in priority order with successes at most executions |
| Rules.OptimiseIdle | src/diagnostico/diagnostico.py:302-310 | when no rule has run more than 10 times, an ordered list is left exactly as it was |
| Rules.NamesBound | src/diagnostico/diagnostico.py:281 | there are never more distinct rule names than history entries |
| Rules.NamesExactly | src/diagnostico/diagnostico.py:281 | the distinct names are exactly the rule names of the entries |
| Rules.HitsBound | src/diagnostico/diagnostico.py:286 | the successful entries are at most all the entries |
| Rules.RateBounds | src/diagnostico/diagnostico.py:268 | a rule's success rate lies in [0, 1] |
| Rules.RecentBounds | src/diagnostico/diagnostico.py:280-287 | the recent analysis covers the last min(100, n) entries, counts between one (when there is any) and that many active rules, and has a global success rate in [0, 1] |
| Rules.HitRate | src/diagnostico/diagnostico.py:286 | the share of successful entries lies in [0, 1] |
| Rules.EvaluateBounds | src/diagnostico/diagnostico.py:264-293 | the evaluation lists every rule in order, each with a success rate in [0, 1], counts the rules, and its recent analysis depends on the history alone |
| Rules.RunValid | src/diagnostico/diagnostico.py:180-257 | a run keeps the rules ordered and counted and the history of at most 1000 entries holding scalar contexts |
| Rules.Disparar | src/diagnostico/diagnostico.py:229-257 | the loop of `executar` computes the updated rules, the newest 1000 history entries and the results that the run specifies |
| Rules.RuleEngine.constructor | src/diagnostico/diagnostico.py:178-182 | the engine starts with no rules and an empty history |
| Rules.RuleEngine.AdicionarRegra | src/diagnostico/diagnostico.py:184-210 | `adicionar_regra` appends a fresh rule named `regra_<n>` by default, with zero counters, and re-sorts by priority; the history is unchanged |
| Rules.RuleEngine.Executar | src/diagnostico/diagnostico.py:214-257 | `executar` replaces the rules by their run, keeps the newest 1000 history entries and returns the non-None results |
| Rules.RuleEngine.AvaliarDesempenho | src/diagnostico/diagnostico.py:259-293 | `avaliar_desempenho` counts the rules and gives success rates in [0, 1] per rule and overall |
| Rules.RuleEngine.OtimizarPrioridades | src/diagnostico/diagnostico.py:295-312 | `otimizar_prioridades` reweighs the rules with more than 10 executions and re-sorts; the history is unchanged |
| Coordinator.MatchesSound | src/diagnostico/diagnostico.py:1115-1118 | every anomaly found is a catalogued pattern that `corresponde` accepted with exactly that confidence, and there are at most as many as patterns |
| Coordinator.MatchesStop | src/diagnostico/diagnostico.py:1115-1118 | a pattern whose comparison raises stops the whole scan with that error |
| Coordinator.Ranking | src/diagnostico/diagnostico.py:1121-1150 | the ranking is a stable sort, most confident first, of all matches; the root cause is none with confidence 0.0 exactly when nothing matched, and otherwise has the highest confidence of all matches |
| Coordinator.Recomendacoes | src/diagnostico/diagnostico.py:1153-1157 | one recommendation per anomaly among the first three ranked, in rank order |
| Coordinator.SeriesNames | src/diagnostico/diagnostico.py:1104 | one series name `dimensao:nome` per metric, in order |
| Coordinator.PutNamed | src/diagnostico/diagnostico.py:1129-1137 | filing under a series name of the batch keeps every key a series name of the batch |
| Coordinator.PointsAddedFrame | src/diagnostico/diagnostico.py:1103-1106 | registering a batch creates a series for each of its names and no other, and leaves every series outside the batch as it was |
| Coordinator.PointsAddedNewest | src/diagnostico/diagnostico.py:1103-1106 | the newest point of a batch is the newest point of its series, whatever the cap |
| Coordinator.GradientsStop | src/diagnostico/diagnostico.py:1124-1129 | once `calcular_gradientes` raises for a metric, the batch raises that error with the histories of that moment |
| Coordinator.GradientsOverEntries | src/diagnostico/diagnostico.py:1124-1129 | every gradient entry belongs to a series of the batch and holds a gradients dictionary; histories of series outside the batch are untouched |
| Coordinator.GradientsOverNamed | src/diagnostico/diagnostico.py:1124-1129 | every key of the gradient dictionary is a series name of the batch |
| Coordinator.GradientsOverQuiet | src/diagnostico/diagnostico.py:1124-1129 | a batch none of whose series has a full window yields no gradients and leaves the histories as they were |
| Coordinator.ChaosOverEntries | src/diagnostico/diagnostico.py:1132-1137 | every chaos entry belongs to a series of the batch and holds deviations of which one exceeds 2.0; references of series outside the batch are untouched |
| Coordinator.ChaosOverNamed | src/diagnostico/diagnostico.py:1132-1137 | every key of the chaos dictionary is a series name of the batch |
| Coordinator.ChaosOverQuiet | src/diagnostico/diagnostico.py:1132-1137 | a batch none of whose series has a full window flags nothing and sets no reference |
| Coordinator.Montar | src/diagnostico/diagnostico.py:1087-1093 | (`Assembled`) the diagnosis carries the id `diag_<time>_<draw>`, the time, the metrics, the ranked anomalies, their root cause, the recommendations for the top three, and a context with keys timestamp, num_metricas, gradientes and caos in that order, the last two holding the given gradients and chaos dictionaries (also lines 1139-1169) |
| Coordinator.Diagnostician.constructor | src/diagnostico/diagnostico.py:1043-1051 | a new diagnostician has an empty catalogue and history, a chaos detector with window 100, embedding 3 and delay 1, and a gradient analyser with window 50 and overlap 10 |
| Coordinator.Diagnostician.RegistrarPadraoAnomalia | src/diagnostico/diagnostico.py:1064-1073 | a pattern is filed under its id, replacing one with the same id in place; the history is unchanged |
| Coordinator.Diagnostician.RegistrarPontos | src/diagnostico/diagnostico.py:1103-1106 | the detector's and the analyser's series become the batch's points appended metric by metric under `dimensao:nome`, capped at twice and ten times their windows; references, histories, rule engine, catalogue and recent diagnoses are unchanged; the invariant is kept |
| Coordinator.Diagnostician.DetectarAnomalias | src/diagnostico/diagnostico.py:1112-1118 | the scan returns the matches of the catalogue, in catalogue order |
| Coordinator.Diagnostician.AnalisarGradientes | src/diagnostico/diagnostico.py:1124-1129 | the result and the new histories are those of calling `calcular_gradientes` for each metric in order: an entry holding its gradients for exactly the series that have a result, the first raise ending the loop; the series are unchanged and every key is a series name of the batch |
| Coordinator.Diagnostician.DetectarCaos | src/diagnostico/diagnostico.py:1132-1137 | the result and the new references are those of calling `detectar_anomalia` with threshold 2.0 for each metric in order: an entry holding its deviations for exactly the flagged series; the series are unchanged and every key is a series name of the batch |
| Coordinator.Diagnostician.AnalisarSeries | src/diagnostico/diagnostico.py:1123-1137 | the gradient loop runs first and the chaos loop only when it raised nothing; the result, the histories and the references are the two folds over the batch, a raise leaving the references unchanged; the series are unchanged |
| Coordinator.Diagnostician.Concluir | src/diagnostico/diagnostico.py:1120-1176 | after the matches are found: it raises exactly when a gradient computation raises; otherwise the diagnosis is assembled from the matches ranked by confidence and the two folds' results, and joins the newest 100 diagnoses; a raise leaves the recent diagnoses and the references unchanged |
| Coordinator.Diagnostician.ProcessarMetricas | src/diagnostico/diagnostico.py:1075-1176 | `processar_metricas` leaves the catalogue unchanged, registers the batch's points and runs the rule engine on the batch with the initial context, whose rules become their run and whose history keeps the newest 1000 entries; it raises exactly when a pattern comparison or a gradient computation raises; its diagnosis holds the catalogue matches ranked by confidence, the most confident as root cause, recommendations for the top three, a context whose `gradientes` and `caos` are the two loops' results on the registered series, and joins the newest 100 diagnoses; a raise leaves the recent diagnoses unchanged, and the histories and references change only as far as the loops ran |
| Coordinator.Diagnostician.ObterDiagnostico | src/diagnostico/diagnostico.py:1178-1193 | `obter_diagnostico` answers None exactly when no recent diagnosis has the id, and otherwise the first one that has it |
| Actions.TipoFromName | src/gerador_acoes/gerador_acoes.py:31-84 | looking up an action type by name succeeds exactly for HOTFIX, REFATORACAO and REDESIGN, and gives back the type of that name |
| Actions.AcaoRequiredOf | src/gerador_acoes/gerador_acoes.py:83-89 | the seven required fields are read from a dictionary that starts with those of an action |
| Actions.AcaoPrefix | src/gerador_acoes/gerador_acoes.py:64-71 | `to_dict` writes the seven required fields first, in declaration order, with the type written by name |
| Actions.AcaoHeaderOf | src/gerador_acoes/gerador_acoes.py:83-85 | id, type and description read back from `to_dict` |
| Actions.AcaoBodyOf | src/gerador_acoes/gerador_acoes.py:86-89 | commands, impact, time and resources read back from `to_dict` |
| Actions.AcaoOptionalRoundTrip | src/gerador_acoes/gerador_acoes.py:72-94 | the five optional fields read back from `to_dict` as written |
| Actions.AcaoRoundTrip | src/gerador_acoes/gerador_acoes.py:62-95 | `from_dict(to_dict(a))` succeeds and gives `a` back |
| Actions.AcaoDefaults | src/gerador_acoes/gerador_acoes.py:56-95 | a dictionary holding only the required fields reads back with priority 0.0, no dependencies, risk 0.5, reversible and an empty context |
| Actions.RequiredKeysOnly | src/gerador_acoes/gerador_acoes.py:64-71 | the required fields name none of the optional keys |
| Actions.AcaoFromParts | src/gerador_acoes/gerador_acoes.py:80-95 | `from_dict` puts the optional fields over the action built from the required ones |
| Actions.AcaoOptionalDefaults | src/gerador_acoes/gerador_acoes.py:90-94 | without the optional keys the optional fields take their declared defaults |
| Actions.UnknownTipoFails | src/gerador_acoes/gerador_acoes.py:84 | a dictionary naming an unknown action type is refused |
| Actions.AcoesValue | src/gerador_acoes/gerador_acoes.py:121 | one serialised entry per action |
| Actions.AcoesRoundTrip | src/gerador_acoes/gerador_acoes.py:121-135 | reading the serialised actions back gives the actions |
| Actions.PlanoRequiredOf | src/gerador_acoes/gerador_acoes.py:133-136 | the four required plan fields are read from a dictionary that starts with them |
| Actions.PlanoOptionalRoundTrip | src/gerador_acoes/gerador_acoes.py:123-140 | the optional plan fields read back from `to_dict` as written |
| Actions.PlanoFromParts | src/gerador_acoes/gerador_acoes.py:130-141 | `from_dict` builds the plan from the required and the optional fields |
| Actions.PlanoRoundTrip | src/gerador_acoes/gerador_acoes.py:116-141 | `from_dict(to_dict(p))` succeeds and gives the plan back, actions included |
| Actions.PlanoOptionalDefaults | src/gerador_acoes/gerador_acoes.py:111-140 | without the optional keys a plan has score 0.0, status "criado", no result and no impacted metrics |
| Actions.PlanoDefaults | src/gerador_acoes/gerador_acoes.py:130-141 | a plan dictionary holding only the required fields reads back as a fresh plan |
| Fill.FillCommands | src/gerador_acoes/gerador_acoes.py:268-280 | every command of the list is filled, one result per command, in order |
| Fill.PreencherComandos | src/gerador_acoes/gerador_acoes.py:264-280 | the loop that fills the commands in place keeps the list's length and yields the filled list |
| Fill.OnlyScalarsFilled | src/gerador_acoes/gerador_acoes.py:276-278 | only string, number and boolean context values are substituted; the others could as well be absent (also lines 512-514, 694-696) |
| Fill.UnmatchedUnchanged | src/gerador_acoes/gerador_acoes.py:268-280 | a command that contains none of the placeholders substituted comes back unchanged |
| Fill.AnomaliesUnchanged | src/gerador_acoes/gerador_acoes.py:270-273 | a command without the anomaly placeholders is untouched by the anomaly substitutions (also lines 506-509) |
| Fill.ContextUnchanged | src/gerador_acoes/gerador_acoes.py:276-278 | a command without any context key's placeholder is untouched by the context substitutions |
| Fill.BraceFreeUnchanged | src/gerador_acoes/gerador_acoes.py:268-280 | every placeholder begins with a brace, so a command without braces is never rewritten |
| Fill.ContainsFirst | src/gerador_acoes/gerador_acoes.py:271-278 | a text containing a placeholder contains the placeholder's first character |
| Fill.SinglePlaceholder | src/gerador_acoes/gerador_acoes.py:278 | a command that is exactly the placeholder of a scalar context entry becomes that value's text |
| Hotfix.Eficacias | src/gerador_acoes/gerador_acoes.py:226-229 | the efficacies gathered are at most one per related action |
| Hotfix.Scores | src/gerador_acoes/gerador_acoes.py:209-238 | one score per template, in order, each the template's score |
| Hotfix.Positions | src/gerador_acoes/gerador_acoes.py:245 | the positions listed are exactly those whose score equals the maximum |
| Hotfix.EficaciasBounded | src/gerador_acoes/gerador_acoes.py:179-229 | with efficacies recorded in [0, 1], every efficacy gathered lies in [0, 1] |
| Hotfix.ScoreRange | src/gerador_acoes/gerador_acoes.py:211-238 | a score is -1 exactly when the template's conditions fail, and otherwise lies in [0, 1] (the mean efficacy, or 0.5 without record) |
| Hotfix.SelectChoice | src/gerador_acoes/gerador_acoes.py:199-248 | no template is chosen exactly when there is none or when several all fail their conditions; a sole template is chosen unconditionally; otherwise the choice is a template with no higher score |
| Hotfix.TemplateAction | src/gerador_acoes/gerador_acoes.py:250-302 | a filled template is a HOTFIX with one command per template command, the template's priority, risk and time where given, else 0.8, 0.3 and 60 s, and a context naming the diagnosis and the template |
| Hotfix.NotMonitor | src/gerador_acoes/gerador_acoes.py:334-349 | no dimension's command is the monitoring command |
| Hotfix.DimCommandsShape | src/gerador_acoes/gerador_acoes.py:334-349 | the generic commands are empty exactly when no dimension is known, and never contain the monitoring command |
| Hotfix.DimImpactsShape | src/gerador_acoes/gerador_acoes.py:334-346 | the generic impacts cover exactly the known dimensions of the anomaly, each with its table value |
| Hotfix.GenericFallback | src/gerador_acoes/gerador_acoes.py:326-370 | the generic action is a reversible HOTFIX of priority 0.7, risk 0.4 and 30 s, whose commands are the monitoring command alone exactly when no dimension is known |
| Hotfix.HotfixKind | src/gerador_acoes/gerador_acoes.py:283-353 | every action of the generator is a HOTFIX |
| Hotfix.Selecionar | src/gerador_acoes/gerador_acoes.py:202-248 | the scoring loop chooses the template that the selection specifies |
| Hotfix.AcoesPara | src/gerador_acoes/gerador_acoes.py:314-374 | the actions are those planned for each anomaly, in order |
| Hotfix.HotfixForTemplate | src/gerador_acoes/gerador_acoes.py:319-324 | no template or the empty dictionary gives the generic action; a template holding only keys the generator never reads is still true and gives the filled action with priority 0.8, risk 0.3, 60 s, reversible and template id "desconhecido" (also lines 286-299) |
| Hotfix.AcaoPara | src/gerador_acoes/gerador_acoes.py:319-372 | one anomaly's action comes from its chosen template when that dictionary is true (any key, read or not), else is the generic one, and is a HOTFIX |
| Hotfix.ComandosGenericos | src/gerador_acoes/gerador_acoes.py:331-349 | the loop over the dimensions gathers the table's commands and impacts |
| Hotfix.AcaoGenerica | src/gerador_acoes/gerador_acoes.py:327-370 | the loop builds the generic action that the fallback specifies |
| Hotfix.GeradorHotfix.constructor | src/gerador_acoes/gerador_acoes.py:152-156 | a new generator has no templates and no efficacy record |
| Hotfix.GeradorHotfix.RegistrarTemplate | src/gerador_acoes/gerador_acoes.py:158-171 | a template joins the end of its pattern's list; the efficacy record is unchanged |
| Hotfix.GeradorHotfix.RegistrarEficacia | src/gerador_acoes/gerador_acoes.py:173-185 | the action's efficacy, stamped with the clock, replaces any earlier one; templates are unchanged |
| Hotfix.GeradorHotfix.SelecionarTemplate | src/gerador_acoes/gerador_acoes.py:187-248 | the template chosen for a pattern is the selection among its registered templates |
| Hotfix.GeradorHotfix.GerarAcoes | src/gerador_acoes/gerador_acoes.py:304-374 | one HOTFIX per detected anomaly, in order, from the template chosen for it or else the generic action |
| Refactor.PresentIds | src/gerador_acoes/gerador_acoes.py:439 | the present ids are exactly the ids of the detected anomalies |
| Refactor.FirstNamed | src/gerador_acoes/gerador_acoes.py:452-467 | the scan finds nothing exactly when no analysed metric has the name, and otherwise the first metric with it |
| Refactor.ApplicableNames | src/gerador_acoes/gerador_acoes.py:428-482 | at most one name per registered pattern |
| Refactor.ApplicableNamesSpec | src/gerador_acoes/gerador_acoes.py:431-480 | a name is listed exactly when a registered pattern of that name applies: every required anomaly is present, every metric condition holds on the first metric of that name, and every context condition holds |
| Refactor.AsWrittenAgrees | src/gerador_acoes/gerador_acoes.py:431-480 | when every pattern declares conditions, the code as written lists exactly the applicable patterns |
| Refactor.PrependNames | src/gerador_acoes/gerador_acoes.py:431-480 | scanning a pattern and then the rest lists the pattern first when it applies |
| Refactor.StaleVerdict | src/gerador_acoes/gerador_acoes.py:433-480 | as written, a pattern without conditions after a failing one inherits the stale False and is skipped, though the intended test lists it |
| Refactor.UnboundVerdict | src/gerador_acoes/gerador_acoes.py:433-480 | as written, a catalogue whose first pattern has no conditions raises (the verdict is unbound), though the intended test lists it |
| Refactor.MissingMetricFails | src/gerador_acoes/gerador_acoes.py:469-470 | a metric condition on a metric that was not analysed makes the pattern inapplicable |
| Refactor.UnknownOperator | src/gerador_acoes/gerador_acoes.py:458-467 | an operator other than gt, lt, eq and ne only requires the metric to be present |
| Refactor.RefactorAction | src/gerador_acoes/gerador_acoes.py:484-538 | the action is a REFATORACAO with one command per pattern command and the pattern's values where given, else priority 0.5, risk 0.5, 300 s, reversible |
| Refactor.CheckMetricConds | src/gerador_acoes/gerador_acoes.py:445-470 | the metric-condition loop answers exactly whether every condition holds on the first metric of its name |
| Refactor.FirstNamedAt | src/gerador_acoes/gerador_acoes.py:453-467 | the scan stops at the first metric with the name |
| Refactor.CheckContext | src/gerador_acoes/gerador_acoes.py:473-477 | the context loop answers exactly whether every required key holds an equal value |
| Refactor.CheckPattern | src/gerador_acoes/gerador_acoes.py:433-477 | the loop over one pattern's condition groups answers the intended applicability |
| Refactor.MotorRefatoracao.constructor | src/gerador_acoes/gerador_acoes.py:385-389 | a new engine has no patterns and no history |
| Refactor.MotorRefatoracao.RegistrarPadrao | src/gerador_acoes/gerador_acoes.py:391-401 | a new name joins the end, an existing one is replaced in place; the history is unchanged |
| Refactor.MotorRefatoracao.RegistrarAplicacao | src/gerador_acoes/gerador_acoes.py:403-416 | the application, stamped with the clock, joins the newest 100; the patterns are unchanged |
| Refactor.MotorRefatoracao.IdentificarAplicaveis | src/gerador_acoes/gerador_acoes.py:418-482 | the names listed are the applicable patterns in registration order, a pattern without conditions counting as applicable |
| Refactor.MotorRefatoracao.GerarAcoes | src/gerador_acoes/gerador_acoes.py:540-560 | one REFATORACAO action per applicable pattern, in registration order |
| Refactor.AcaoRefatoracao | src/gerador_acoes/gerador_acoes.py:495-538 | the action built after filling the commands one by one is the planned one |
| Refactor.AcoesPara | src/gerador_acoes/gerador_acoes.py:556-558 | one planned action per applicable name, in order |
| Refactor.ApplicableRegistered | src/gerador_acoes/gerador_acoes.py:431-480 | every listed name is a registered pattern |
| Redesign.PyIn | src/gerador_acoes/gerador_acoes.py:642 | `in` tests a dictionary's keys, a list's elements or a string's substrings, and raises on any other value |
| Redesign.PyItem | src/gerador_acoes/gerador_acoes.py:644-645 | a string subscript succeeds exactly on a dictionary holding the key, and yields that key's value |
| Redesign.Slopes | src/gerador_acoes/gerador_acoes.py:642-645 | a value other than a dictionary, list or string raises; slopes are found only in a dictionary holding both scales, each a dictionary whose `inclinacao` they are; a list or string lacking a scale yields none |
| Redesign.PyPositive | src/gerador_acoes/gerador_acoes.py:647 | `x > 0` answers for a bool, int or float by its value and raises for anything else |
| Redesign.PyNegative | src/gerador_acoes/gerador_acoes.py:649 | `x < 0` answers for a bool, int or float by its value and raises for anything else |
| Redesign.VerdictAgrees | src/gerador_acoes/gerador_acoes.py:647-650 | on numeric slopes the test is `Agrees`; a direction other than the two never compares a slope; a first slope of the wrong sign stops the test before the second is compared |
| Redesign.SlopeAgreesCases | src/gerador_acoes/gerador_acoes.py:642-650 | a list or string lacking a scale earns nothing without raising, a number, bool or None raises on `in`, a dictionary lacking a scale earns nothing, and numeric slopes earn exactly when they agree with the direction |
| Redesign.TargetTermBounds | src/gerador_acoes/gerador_acoes.py:621-630 | the targeted-anomaly term lies in [0, 0.5] and, for a non-empty target, is 0.5 exactly when every target anomaly is present |
| Redesign.SeriesBonusBounds | src/gerador_acoes/gerador_acoes.py:639-649 | one trend adds 0.3 per matching gradient series, at most 0.3 times the number of series |
| Redesign.SeriesBonusNeedsName | src/gerador_acoes/gerador_acoes.py:640 | a trend adds nothing unless some series name contains its metric name |
| Redesign.TrendsBonusNonNegative | src/gerador_acoes/gerador_acoes.py:633-649 | the bonus of the declared trends is never negative |
| Redesign.AppliedAtSpec | src/gerador_acoes/gerador_acoes.py:652-655 | the application times gathered are exactly those of the strategy's recorded applications |
| Redesign.ScoreOf | src/gerador_acoes/gerador_acoes.py:617-662 | a strategy's score is its raw score damped by recency and capped |
| Redesign.RecencyBounds | src/gerador_acoes/gerador_acoes.py:652-660 | the recency factor is 1 without a recorded application, and in [0, 1] when no application lies in the future |
| Redesign.RawScoreNonNegative | src/gerador_acoes/gerador_acoes.py:618-649 | the raw score is never negative |
| Redesign.DampedProperties | src/gerador_acoes/gerador_acoes.py:652-662 | a score never exceeds 1; without an application it is the raw score capped; with past applications it lies between 0 and the capped raw score |
| Redesign.RecentPenalty | src/gerador_acoes/gerador_acoes.py:656-662 | a strategy applied less than seven days ago has its raw score scaled by the elapsed share of the week, then capped |
| Redesign.RedesignAction | src/gerador_acoes/gerador_acoes.py:666-720 | the action is a REDESIGN with one command per strategy command and the strategy's values where given, else priority 0.3, risk 0.7, 1800 s, not reversible |
| Redesign.Scores | src/gerador_acoes/gerador_acoes.py:614-664 | when scoring succeeds there is one score per registered strategy, in registration order |
| Redesign.Selected | src/gerador_acoes/gerador_acoes.py:739-740 | the strategies selected are exactly those whose score reaches the threshold, in order |
| Redesign.ProjetistaEvolutivo.constructor | src/gerador_acoes/gerador_acoes.py:571-575 | a new designer has no strategies and no history |
| Redesign.ProjetistaEvolutivo.RegistrarEstrategia | src/gerador_acoes/gerador_acoes.py:577-587 | a new name joins the end, an existing one is replaced in place; the history is unchanged |
| Redesign.ProjetistaEvolutivo.RegistrarEvolucao | src/gerador_acoes/gerador_acoes.py:589-602 | the application, stamped with the clock, is appended to the unbounded history; strategies are unchanged |
| Redesign.ProjetistaEvolutivo.PontuarEstrategia | src/gerador_acoes/gerador_acoes.py:618-662 | the nested loops over one strategy compute its specified score |
| Redesign.ProjetistaEvolutivo.PontuacaoBruta | src/gerador_acoes/gerador_acoes.py:618-649 | the targeted-anomaly term plus the trend bonus is the raw score |
| Redesign.ProjetistaEvolutivo.BonusDasTendencias | src/gerador_acoes/gerador_acoes.py:634-649 | the loop over the trends computes their bonus, stopping at the first error |
| Redesign.ProjetistaEvolutivo.BonusDaTendencia | src/gerador_acoes/gerador_acoes.py:639-649 | the loop over the gradient series computes one trend's bonus |
| Redesign.ProjetistaEvolutivo.AvaliarNecessidade | src/gerador_acoes/gerador_acoes.py:604-664 | `_avaliar_necessidade_evolucao` computes the score of every strategy in registration order |
| Redesign.ProjetistaEvolutivo.GerarAcoes | src/gerador_acoes/gerador_acoes.py:722-744 | one REDESIGN action per strategy whose score reaches the threshold (0.6 by default), in registration order; an error raised while scoring propagates |
| Redesign.AcaoEvolutiva | src/gerador_acoes/gerador_acoes.py:677-720 | the action built after filling the commands one by one is the planned one |
| Redesign.AcoesPara | src/gerador_acoes/gerador_acoes.py:739-742 | one planned action per selected strategy, in order |
| Redesign.TrendsBonusStop | src/gerador_acoes/gerador_acoes.py:634-649 | a trend whose gradient lookup raises ends the trend scan with that error |
| Redesign.TrendsBonusFails | src/gerador_acoes/gerador_acoes.py:634-649 | once a prefix of the trends fails, the whole scan fails the same way |
| Redesign.SeriesBonusStop | src/gerador_acoes/gerador_acoes.py:639-644 | a series whose membership test, lookup or slope comparison raises ends the series scan with that error |
| Redesign.SeriesBonusFails | src/gerador_acoes/gerador_acoes.py:639-649 | once a prefix of the series fails, the whole scan fails the same way |
| Redesign.ScoresStop | src/gerador_acoes/gerador_acoes.py:617-662 | a strategy whose scoring raises ends the evaluation with that error |
| Redesign.ScoresFail | src/gerador_acoes/gerador_acoes.py:617-662 | once a prefix of the strategies fails, the whole evaluation fails the same way |
| Fitness.Pick | src/gerador_acoes/gerador_acoes.py:815 | the plan's actions are the actions at the plan's indices, in plan order |
| Fitness.CombineMissing | src/gerador_acoes/gerador_acoes.py:825-826 | combining an impact shrinks the missing part by the factor one minus the impact, so impacts combine like independent probabilities |
| Fitness.CombineBounds | src/gerador_acoes/gerador_acoes.py:824-826 | combining values of [0, 1] stays in [0, 1] and never lowers the current impact |
| Fitness.CombineAllClosedForm | src/gerador_acoes/gerador_acoes.py:824-826 | combining impacts one after the other leaves missing exactly the product of their complements |
| Fitness.AddImpactsOnDim | src/gerador_acoes/gerador_acoes.py:820-826 | one action's loop changes a dimension by combining exactly the impacts it lists for that dimension, in order |
| Fitness.AccumulateOnDim | src/gerador_acoes/gerador_acoes.py:818-826 | the loops over all actions change a dimension by combining exactly the impacts listed for it, action by action |
| Fitness.AddImpactsClosedForm | src/gerador_acoes/gerador_acoes.py:820-826 | after one action's impacts a dimension's combined impact is one minus the old complement times the complements of that action's impacts on it |
| Fitness.AccumulateClosedForm | src/gerador_acoes/gerador_acoes.py:818-826 | after several actions a dimension's combined impact is one minus the old complement times the product of the complements of their impacts on it |
| Fitness.CombinedClosedForm | src/gerador_acoes/gerador_acoes.py:818-826 | the combined impact on a dimension is one minus the product of the complements of every impact on it, whatever the order of the actions |
| Fitness.AddImpactsBounded | src/gerador_acoes/gerador_acoes.py:820-826 | with impacts in [0, 1] the combined impacts stay in [0, 1] after one action |
| Fitness.AccumulateBounded | src/gerador_acoes/gerador_acoes.py:818-826 | with impacts in [0, 1] the combined impacts stay in [0, 1] after every action |
| Fitness.EfficacyBounds | src/gerador_acoes/gerador_acoes.py:828 | the efficacy, the mean combined impact, lies in [0, 1] |
| Fitness.Prioridades | src/gerador_acoes/gerador_acoes.py:831 | one priority per action |
| Fitness.Riscos | src/gerador_acoes/gerador_acoes.py:835 | one risk per action |
| Fitness.RiscosPonderados | src/gerador_acoes/gerador_acoes.py:833 | one priority-weighted risk per action |
| Fitness.Tempos | src/gerador_acoes/gerador_acoes.py:841 | one estimated time per action |
| Fitness.WeightedSumBounds | src/gerador_acoes/gerador_acoes.py:831-833 | the sum of priority-weighted risks lies between 0 and the sum of priorities |
| Fitness.SumsSnoc | src/gerador_acoes/gerador_acoes.py:831-833 | the weighted-risk and priority sums grow by the last action's terms |
| Fitness.WeightBounds | src/gerador_acoes/gerador_acoes.py:833 | an action's weighted risk lies between 0 and its priority |
| Fitness.PlanRiskBounds | src/gerador_acoes/gerador_acoes.py:830-835 | the plan's risk, weighted by priority or plain when priorities sum to 0, lies in [0, 1] |
| Fitness.AtLeastZero | src/gerador_acoes/gerador_acoes.py:845-854 | `max(0, x)` is the larger of 0 and x |
| Fitness.EvaluateBounds | src/gerador_acoes/gerador_acoes.py:794-870 | with well-formed actions every objective and the weighted total of a plan lie in [0, 1], the empty plan scoring 0 |
| Fitness.ScoresOfBounds | src/gerador_acoes/gerador_acoes.py:828-870 | the efficacy, inverted risk, normalised time and resources and the total all lie in [0, 1] |
| Fitness.WeightedBounds | src/gerador_acoes/gerador_acoes.py:757-763 | the total weighted 0.4, 0.3, 0.2 and 0.1 of four scores in [0, 1] lies in [0, 1] (also lines 857-862) |
| Fitness.Acumular | src/gerador_acoes/gerador_acoes.py:820-826 | the loop over one action's impacts computes the specified combination |
| Fitness.AvaliarPlano | src/gerador_acoes/gerador_acoes.py:794-870 | `_avaliar_plano`, loop by loop, computes the specified scores |
| Variation.UniqueProperties | src/gerador_acoes/gerador_acoes.py:918-919 | turning a plan into a set keeps exactly its actions, without repeats |
| Variation.FilterProperties | src/gerador_acoes/gerador_acoes.py:922-924 | the intersection and differences keep exactly the actions inside (or outside) the other parent, without repeats |
| Variation.DealProperties | src/gerador_acoes/gerador_acoes.py:931-941 | dealing by coin gives a child exactly the actions whose coin fell on its side, without repeats |
| Variation.DealSnoc | src/gerador_acoes/gerador_acoes.py:931-941 | dealing one more action appends it to the side its coin chose |
| Variation.ExclusiveParts | src/gerador_acoes/gerador_acoes.py:922-924 | the shared actions are those of both parents, the unshared ones those of exactly one, each without repeats |
| Variation.CrossoverProperties | src/gerador_acoes/gerador_acoes.py:906-943 | crossover keeps the shared actions in both children, hands each action of only one parent to exactly one child, adds nothing else and never repeats an action |
| Variation.RemoveFirstProperties | src/gerador_acoes/gerador_acoes.py:963-964 | removing an action from a plan without repeats leaves exactly the other actions |
| Variation.TogglesProperties | src/gerador_acoes/gerador_acoes.py:959-966 | the flips leave exactly the actions whose presence was toggled or kept, without repeats |
| Variation.MutationProperties | src/gerador_acoes/gerador_acoes.py:945-972 | mutation flips exactly the drawn actions below the action count, never repeats an action, and only a plan the flips emptied gets the single drawn fallback action |
| Variation.MutationInRange | src/gerador_acoes/gerador_acoes.py:959-970 | with a plan of existing actions, mutation yields only existing actions |
| Variation.Repartir | src/gerador_acoes/gerador_acoes.py:931-941 | each distribution loop hands its actions to the children by their coins |
| Variation.Cruzar | src/gerador_acoes/gerador_acoes.py:906-943 | `_cruzar`'s loops compute the specified crossover |
| Variation.Mutar | src/gerador_acoes/gerador_acoes.py:945-972 | `_mutar`'s loops compute the specified mutation |
| Genetic.Range | src/gerador_acoes/gerador_acoes.py:782 | `range(n)` lists 0 to n - 1 in order (also lines 886, 960) |
| Genetic.IncludedProperties | src/gerador_acoes/gerador_acoes.py:781-784 | the drawn plan holds exactly the actions whose draw included them, without repeats |
| Genetic.InitialPlan | src/gerador_acoes/gerador_acoes.py:779-790 | with at least one action every initial plan is valid: non-empty, in range, without repeats |
| Genetic.InitialPlanProperties | src/gerador_acoes/gerador_acoes.py:781-788 | an initial plan holds exactly the drawn actions, or only the drawn fallback action when no action was drawn |
| Genetic.InitialPopulation | src/gerador_acoes/gerador_acoes.py:766-792 | the initial population has the configured number of plans (none when it is not positive), each drawn independently |
| Genetic.ArgMax | src/gerador_acoes/gerador_acoes.py:893 | `max(..., key=...)` picks one of the candidates (also lines 899, 1002, 1022) |
| Genetic.ArgMaxProperties | src/gerador_acoes/gerador_acoes.py:893 | the pick scores at least as much as every candidate and more than every candidate before it, so it is the first best (also lines 899, 1002, 1022) |
| Genetic.Candidates | src/gerador_acoes/gerador_acoes.py:892-898 | the tournament's candidates are a non-empty sample of the pool |
| Genetic.Others | src/gerador_acoes/gerador_acoes.py:896 | the pool for the second parent is every position but the first parent's |
| Genetic.Tournament | src/gerador_acoes/gerador_acoes.py:890-899 | both candidate lists are non-empty lists of population positions |
| Genetic.Parents | src/gerador_acoes/gerador_acoes.py:892-902 | both parents are population positions |
| Genetic.TournamentProperties | src/gerador_acoes/gerador_acoes.py:890-902 | each parent is the best of its candidates, and the parents differ whenever the population has two plans |
| Genetic.Totals | src/gerador_acoes/gerador_acoes.py:887 | one total score per plan, in order (also line 993) |
| Genetic.ParentPairs | src/gerador_acoes/gerador_acoes.py:883-904 | `len(populacao) // 2` parent pairs |
| Genetic.Offspring | src/gerador_acoes/gerador_acoes.py:1006-1013 | two children per parent pair |
| Genetic.ChildrenValid | src/gerador_acoes/gerador_acoes.py:1007-1011 | children of valid parents, crossed and mutated, are valid plans |
| Genetic.OffspringValid | src/gerador_acoes/gerador_acoes.py:1006-1013 | every child of valid parents is a valid plan |
| Genetic.BestProperties | src/gerador_acoes/gerador_acoes.py:1002 | the elite plan is a plan of the population with the highest total |
| Genetic.Truncate | src/gerador_acoes/gerador_acoes.py:1016 | `nova_populacao[:tamanho]` is the prefix of at most that size |
| Genetic.BreedValid | src/gerador_acoes/gerador_acoes.py:999-1016 | the next population is valid, bounded by the configured size, and starts with the elite plan |
| Genetic.ParentPairsValid | src/gerador_acoes/gerador_acoes.py:890-902 | the parents of a valid population are valid plans |
| Genetic.Generation | src/gerador_acoes/gerador_acoes.py:991-1016 | a generation with a positive size leaves a non-empty population |
| Genetic.GenerationElitist | src/gerador_acoes/gerador_acoes.py:1001-1016 | a generation keeps the population valid and never loses the best total |
| Genetic.EvolveElitist | src/gerador_acoes/gerador_acoes.py:991-1016 | an elitist step keeps the population valid and the best total from falling over any number of generations |
| Genetic.StepElitist | src/gerador_acoes/gerador_acoes.py:992-1016 | the optimiser's generation step is elitist |
| Genetic.FinalPopulationElitist | src/gerador_acoes/gerador_acoes.py:988-1016 | the final population is valid and its best total is at least the initial population's |
| Genetic.ChosenProperties | src/gerador_acoes/gerador_acoes.py:1019-1027 | the chosen actions are those of a valid plan of the population, with that plan's own total, the best total, in [0, 1] with well-formed actions |
| Genetic.OptimizeProperties | src/gerador_acoes/gerador_acoes.py:974-1031 | the optimiser returns nothing for no actions, raises on an empty population, and otherwise returns a valid plan's actions with that plan's total, at least the initial best and in [0, 1] with well-formed actions |
| Genetic.GerarPopulacaoInicial | src/gerador_acoes/gerador_acoes.py:766-792 | `_gerar_populacao_inicial`'s loops compute the specified population |
| Genetic.Torneio | src/gerador_acoes/gerador_acoes.py:890-902 | one pass of the pair loop: two tournaments and the plans of their winners |
| Genetic.SelecionarPais | src/gerador_acoes/gerador_acoes.py:872-904 | `_selecionar_pais`'s loop computes the specified pairs |
| Genetic.Reproduzir | src/gerador_acoes/gerador_acoes.py:1006-1013 | the loop over the pairs computes their crossed and mutated children |
| Genetic.Geracao | src/gerador_acoes/gerador_acoes.py:992-1016 | one pass of the generation loop computes the specified step |
| Genetic.Evoluir | src/gerador_acoes/gerador_acoes.py:991-1016 | the generation loop applies the step once per generation |
| Genetic.MelhorPlano | src/gerador_acoes/gerador_acoes.py:1019-1027 | the final scoring chooses the first plan with the best total, as actions |
| Genetic.OtimizarPlano | src/gerador_acoes/gerador_acoes.py:974-1031 | `otimizar_plano` computes the specified optimisation |
| Store.NamesOfDimMembers | src/gerador_acoes/gerador_acoes.py:1095-1097 | the names gathered for a dimension are exactly those of the analysed metrics of that dimension |
| Store.NamesOfDimsMembers | src/gerador_acoes/gerador_acoes.py:1094-1097 | the names gathered for several dimensions are exactly those of the analysed metrics of any of them |
| Store.ImpactedRawMembers | src/gerador_acoes/gerador_acoes.py:1093-1097 | the names gathered over the chosen actions are exactly those of the metrics in a dimension some action's impact names |
| Store.ImpactedNamesProperties | src/gerador_acoes/gerador_acoes.py:1092-1107 | the impacted metrics are the names, each once, of exactly the analysed metrics whose dimension is a key of some chosen action's impact estimate |
| Store.PlanForHeader | src/gerador_acoes/gerador_acoes.py:1063-1108 | a new plan has the drawn id, belongs to the diagnosis, is "criado" with no result and stamped now; with no candidate actions it is empty, scored 0 and impacts no metric |
| Store.PlanForChosen | src/gerador_acoes/gerador_acoes.py:1089-1108 | with candidates, the plan holds the actions of one valid optimised plan, scored with that plan's total, and lists the metrics those actions impact |
| Store.IndexOf | src/gerador_acoes/gerador_acoes.py:1128-1130 | a position found holds a plan with the id |
| Store.IndexOfProperties | src/gerador_acoes/gerador_acoes.py:1128-1132 | the position found is the first plan with the id, and none is found exactly when no plan has it |
| Store.UpdateStatusProperties | src/gerador_acoes/gerador_acoes.py:1147-1153 | an update changes nothing for an unknown id; otherwise it changes only the status, and the result when a non-empty one was given, of the first plan with the id |
| Store.HotfixRecordsProperties | src/gerador_acoes/gerador_acoes.py:1176-1182 | every hotfix of the plan with a reported efficacy has that efficacy on record, the last such action winning for a repeated id, and every other id keeps its old record |
| Store.RecordCounts | src/gerador_acoes/gerador_acoes.py:1176-1192 | one application per refactoring and one evolution per redesign of the plan with a reported efficacy |
| Store.RecordsStep | src/gerador_acoes/gerador_acoes.py:1176-1192 | registering one more action of the plan extends the three records by that action's own record |
| Store.Posicao | src/gerador_acoes/gerador_acoes.py:1128-1132 | the scan of `obter_plano` finds the specified position |
| Store.MetricasImpactadas | src/gerador_acoes/gerador_acoes.py:1092-1097 | the three nested loops collect the specified impacted metric names |
| Store.AdicionarDimensoes | src/gerador_acoes/gerador_acoes.py:1094-1097 | the middle loop adds the metrics of each impacted dimension to the set |
| Store.AdicionarNomes | src/gerador_acoes/gerador_acoes.py:1095-1097 | the innermost loop adds the names of one dimension's metrics to the set |
| Store.NovoPlano | src/gerador_acoes/gerador_acoes.py:1073-1108 | the plan is built as specified from the candidates |
| Store.GeradorAcoes.constructor | src/gerador_acoes/gerador_acoes.py:1042-1049 | a new generator has empty hotfix, refactoring and redesign generators and no plans |
| Store.GeradorAcoes.Imediatas | src/gerador_acoes/gerador_acoes.py:1066 | the hotfixes are those of the hotfix generator, one per anomaly |
| Store.GeradorAcoes.Refatoracoes | src/gerador_acoes/gerador_acoes.py:1067 | the refactorings are those of the applicable patterns |
| Store.GeradorAcoes.Evolutivas | src/gerador_acoes/gerador_acoes.py:1068 | the redesigns are those of the strategies scored at least 0.6, or the scoring error |
| Store.GeradorAcoes.Candidatas | src/gerador_acoes/gerador_acoes.py:1066-1071 | the candidates are the hotfixes, then the refactorings, then the redesigns |
| Store.GeradorAcoes.GerarPlano | src/gerador_acoes/gerador_acoes.py:1051-1115 | `gerar_plano` builds the plan of the optimised candidates and it joins the newest 100 plans; an error scoring a redesign stores nothing |
| Store.GeradorAcoes.ObterPlano | src/gerador_acoes/gerador_acoes.py:1117-1132 | `obter_plano` answers the first stored plan with the id, or None |
| Store.GeradorAcoes.AtualizarStatusPlano | src/gerador_acoes/gerador_acoes.py:1134-1157 | `atualizar_status_plano` answers false exactly for an unknown id and applies the specified update |
| Store.GeradorAcoes.RegistrarAcao | src/gerador_acoes/gerador_acoes.py:1177-1192 | one action's efficacy goes to the generator of its type; no template, pattern or strategy changes |
| Store.GeradorAcoes.RegistrarEficaciaAcoes | src/gerador_acoes/gerador_acoes.py:1159-1196 | `registrar_eficacia_acoes` answers false for an unknown plan and changes nothing then; otherwise every action with a reported efficacy is recorded by the generator of its type, in plan order |

## Left out

- Numerical library routines are parameters, not definitions: `scipy.stats.linregress`, `numpy.polyfit`/`polyval`, `pearsonr`, percentiles, standard deviation and square roots, approximate entropy, the Lyapunov proxy, the correlation dimension, kurtosis and skewness. Every property is proved for every answer they might give. The one raise of theirs the model states is numpy's percentile range check (Collectors.LatencyCollector.Coletar).
- `ColetorRecursosFractais` (fractal dimension by box counting), `RedeNeuralHierarquica` (a TensorFlow network) and `inicializar_rede_neural` are numerical code around a library and are not part of this model.
- Randomness (`random.*` in the genetic search, in action and diagnosis ids, in the metric samplers and tie-breaks) is a parameter (`Acaso`, `sorteios`, `escolhas`, `moeda`, `muta`). The properties hold for every draw; the probability distributions are not modelled.
- The clock is one reading `now` per operation. Where the code reads `time.time()` twice in one call, both reads are taken as equal (for example src/diagnostico/diagnostico.py:1087-1091 and 1162 in `processar_metricas`).
- Python floats are exact reals: rounding error, `inf` and `nan` are not modelled. Float formatting (`f"{x:.2f}"`, `str(float)`) is a parameter `fmt`. `round(x, 2)` in `gerar_metricas` is modelled exactly, as rounding half to even on exact reals.
- Threads, locks, worker loops and sleeps are left out; every operation runs as one sequential step. The locks are non-reentrant `threading.Lock`s (src/observabilidade/observabilidade.py:1073 and 1570, src/diagnostico/diagnostico.py:597, src/gerador_acoes/gerador_acoes.py:1048), and these nested acquisitions would deadlock as written:
  - src/observabilidade/observabilidade.py:1481 into 1471, and 1504 and 1528 into 1471 (Observability.Interface.AdicionarDiagnostico, Observability.Interface.AdicionarPlano, Observability.Interface.AtualizarStatusPlano);
  - src/observabilidade/observabilidade.py:1619 into 1590 and into 1608, and 1647 and 1672 into 1608 (Observability.Observabilidade.RegistrarDiagnostico, Observability.Observabilidade.RegistrarPlano, Observability.Observabilidade.AtualizarStatusPlano);
  - src/gerador_acoes/gerador_acoes.py:1146 and 1170 into 1127 (Store.GeradorAcoes.AtualizarStatusPlano, Store.GeradorAcoes.RegistrarEficaciaAcoes);
  - src/diagnostico/diagnostico.py:824 into 807 into 746, and 834 into 746 once a reference exists (Chaos.ChaosDetector.DetectarAnomalia); `definir_referencia` itself takes the lock at 807 and calls `calcular_estatisticas_caoticas`, which takes it again at 746, so every call of it deadlocks (Chaos.ChaosDetector.DefinirReferencia).
  The model gives these operations their sequential meaning, so each of these members returns where the code would block.
- The typed records are checked on entry: Metric.FromValue, Events.FromValue, Actions.AcaoFromValue, Actions.PlanoFromValue and Patterns.DiagnosisFromValue refuse a field of the wrong type with `Err("TypeError…")`. Python's `from_dict` stores such a value unchecked (for example src/monitoramento/monitoramento.py:64-77), and the failure, if any, comes later where the value is used.
- Gradients.CalcularGradiente: does not model a raise from `stats.linregress`. A window of two or more points whose timestamps are all equal has x all zero (src/diagnostico/diagnostico.py:910). Recent SciPy releases raise `ValueError` there and older ones return nan, and nothing between lines 913 and 1127 catches it. The `LinRegress` parameter is total and always answers a regression, so the model's `GradientStep`, `GradientsOver` and `processar_metricas` never fail on that path. Projection.ProjectSeries has the same edge: its intended linear fit is a total parameter too.
- src/observabilidade/observabilidade.py:668 calls `stats.linregress`, but that file never imports `stats` (see Findings). Projection.ProjectSeries takes the regression as the parameter it would be if the import were present.
- Logging, the event recorder, persistence (`salvar_*`/`carregar_*`, the report file), visualisation and dashboards (matplotlib, plotly, Dash, Flask), the web portal, the TypeScript front end and `src/main.py` only record, store or display data. They are not part of this model.
- Python sets whose iteration order reaches the output (crossover children, the resources of a plan) are modelled as sets or as sequences in a fixed order. The model does not say which order Python produces.
- In the plan store (`GeradorAcoes`), the plan stored and the plan returned are the same Python object, so a later status update is visible through both. The model stores values, so that aliasing is not captured.
- Dictionaries and lists of the loosely typed records are values. Mutating a shared context dictionary after it was copied into a record is not modelled.
- Rules.RuleEngine.Executar: a rule's condition and action are given as functions of the metrics and context, so a callable with side effects on shared state is not modelled.
- Kubernetes plumbing is not modelled: informers, listers, the event recorder and the manager setup. The rate limiter's back-off delays and the queue's `Done` bookkeeping are also out. The work queue keeps only its waiting items and its failure counts.
- Client calls are inputs: `Get`, `List` and `Update` answers are fields of `Cluster` or parameters of `Reconcile`. A blocking call is not modelled. Taking an item requires a waiting item or a shut-down queue, because the real `Get` blocks otherwise.
- RollbackReconciler.Reconcile: a failure to convert the policy's label selector (kubernetes/operators/rollback-operator/controller/controllers/rollback_controller.go:53-57) and a failure to list the deployments both reach the model as one listing error, and both return that error.
- RollbackReconciler.Reconcile: `Update` refreshes the deployment from the server's answer, so the `RollbackRevisions` entry records the generation the server returns. The model records the listed generation.
- RollbackReconciler.Reconcile: a deployment selected for a rewrite with no containers makes Go panic on `Containers[0]`. The model turns that into an error outcome carrying the panic's message.
- In the rollback controller, the rewrite is computed on values and handed to `Update`; the in-place mutation of the cached object is not modelled. `*Spec.Replicas` is taken as set, since the default is applied by the API server.
- The integer widths of Kubernetes fields (`int32` replicas, `int64` revisions and generations) are unbounded integers; their overflow is not modelled.
- The stub reconcilers (kubernetes/operators/rollback-operator/controllers/rollback_controller.go and the healing operator) do nothing, and generated code (deep copies, scheme registration) only declares types. They are not part of this model.
- Validation and thresholds are taken as the code has them:
  - `ProjetistaEvolutivo.gerar_acoes` keeps a strategy whose score is at least `limiar_score`, which defaults to 0.6 (src/gerador_acoes/gerador_acoes.py:722 and 740).
  - `atualizar_status_plano` stores any status string; no order of statuses is enforced.
  - `AcaoCorretiva`, `registrar_padrao` and `registrar_eficacia_acoes` check nothing, so any risk, time, pattern or efficacy is accepted. tests/gerador_acoes_test.py expects `ValueError` for such inputs (for example at lines 184-185); the model raises nothing there, as the code does.

## Findings

| source | as written | input that shows it | evidently intended | confidence | as-written member | corrected member |
|---|---|---|---|---|---|---|
| src/gerador_acoes/gerador_acoes.py:431-480 | a pattern without `condicoes` reuses the `aplicavel` left by the previous pattern, so after an inapplicable pattern it is skipped | patterns `a` (conditions that fail) then `b` (no conditions) | `b` imposes nothing and is listed | not executed | Refactor.StaleVerdict | Refactor.ApplicableNamesSpec |
| src/gerador_acoes/gerador_acoes.py:431-480 | when the first pattern has no `condicoes`, `aplicavel` is read before it is assigned and `UnboundLocalError` ends the generation | a single pattern `b` with no conditions | `b` is listed | not executed | Refactor.UnboundVerdict | Refactor.ApplicableNamesSpec |
| src/observabilidade/observabilidade.py:668 | `_ajustar_modelo_linear` calls `stats.linregress`, but the file imports no `stats`, so `projetar_metrica` raises `NameError` | any series with two points or more | `scipy.stats` is imported and the linear fit is used | not executed | Projection.MissingStatsImport | Projection.ProjectSeriesProperties |
