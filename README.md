# SMORE graph-embedding trainer, modelled in Dafny

The repository trains node embeddings for a weighted directed graph by
sampling edges and nudging the embeddings of their endpoints toward each
other. It has two lineages: the current `pysmore` package and the older
`smore` package. This project models the training core of both:

- **Distribution builders.**
  - `pysmore/core/sampler/utils.py` builds normalised out-, in- and total-degree distributions and an edge distribution.
  - `smore/pronet/utils.py` builds the same degree lists without normalising them.
- **Edge samplers.**
  - The `pysmore` sampler caches counts and distributions and draws weighted edge batches.
  - The two `smore` samplers cache raw lists and have stub `sample_edge` methods.
- **The gradient kernel** `compute_dot_product_update`. It fills a zeroed update matrix in place and adds up a scalar loss.
- **The two pair optimizers.** They clamp the learning rate to a floor, apply the gradient step in place (optionally with L2 decay), count updates and anneal the rate.
- **The two `MatrixFactorization` models.** They validate the edge list, build the graph one `add_edge` call at a time, count nodes and edges, and, in `pysmore`, run the training loop.

How the model is laid out:

- **The graph** is a value `Graph<N>`.
  - It holds the nodes in insertion order and the edges in the order networkx iterates over them: grouped by source node, in node order.
  - Each edge has an optional `"weight"` attribute.
  - `DiGraph.AddEdge` is networkx's `add_edge`:
    - missing endpoints are appended to the nodes;
    - re-adding an existing pair overwrites its weight in place;
    - a new edge joins the end of its source's group.
- **Arithmetic** is over `real`.
- **Randomness** is passed in as data:
  - the uniform samples numpy's `Generator.choice` consumes;
  - the initial embedding matrix.
- **Imperative parts stay imperative.**
  - The kernel is a method over `array2<real>`, proved against the functions `UpdateMatrix` and `TotalLoss`.
  - The optimizers are classes whose methods update their fields and their embedding array in place.
  - The models are classes whose graph-building loops are methods proved against `BuiltGraph`.
- **Exceptions** the source raises are modelled as `Outcome` and `Result` values:
  - `ValueError` and `AssertionError` on a bad edge list;
  - the `ValueError`s of `Generator.choice`;
  - `ZeroDivisionError` in the anneal.
- **Float division by zero** in `normalize` is kept as a separate `NonFinite` distribution: numpy yields NaN or infinity there and raises nothing.

Notes on the code that the model follows:

- The kernel's module describes its helpers as computing the loss "in parallel" (`pysmore/core/optimizer/helper/loss_function.py:2`). Both helpers are compiled with `parallel=False`, so the `prange` loop runs in order, and the model is sequential.
- `normalize` divides by the sum even when it is zero. It then returns NaN or infinite entries and raises nothing (`PysmoreSamplerUtils.Normalize`).
- `tests/core/sampler/test_sampler_util.py` divides each expected list by its sum before comparing, so the tests check normalised values. The `*Example` lemmas of `PysmoreSamplerUtils` prove exactly those values. The raw lists themselves are proved for the `smore` functions, which return them unnormalised (`SmorePronetUtils.OutDegreeExample` and its siblings).
- `tests/model/test_matrix_factorization.py` imports the older `smore` model. Its expectations are those of the `pysmore` model:
  - 2-column arrays load with weight 1;
  - 1- and 4-column arrays raise `ValueError`.

  The older model fails its `assert` on all three instead (`SmoreMatrixFactorization.InvalidInputs`). The counting fixtures are therefore proved for the `pysmore` model.

## Model

| member | source | states |
|---|---|---|
| DiGraph.FindEdge | pysmore/model/matrix_factorization.py:72-82 | `add_edge` first looks up the pair: a found position holds an edge with that pair, and no result means no edge has it |
| DiGraph.AddEdgeSpec | pysmore/model/matrix_factorization.py:72-82 | `add_edge` keeps the graph a well-formed DiGraph (distinct nodes, endpoints present, distinct pairs, edges grouped by source), keeps the old nodes as a prefix, adds exactly the two endpoints and exactly the pair (u, v) |
| DiGraph.AddEdgeMembers | pysmore/model/matrix_factorization.py:72-82 | after `add_edge(u, v, weight=w)` the edge (u, v) carries w and every edge of another pair is still there unchanged; nothing else is added |
| DiGraph.AddExistingEdgeValid | pysmore/model/matrix_factorization.py:72-76 | re-adding an existing pair overwrites its weight in place, keeping the edge's position |
| DiGraph.AddExistingEdgePairs | pysmore/model/matrix_factorization.py:72-76 | re-adding an existing pair leaves the pair set unchanged |
| DiGraph.AddNewEdgeValid | pysmore/model/matrix_factorization.py:72-76 | a new pair is inserted at the end of its source's group and the graph stays well formed |
| DiGraph.AddNewEdgePairs | pysmore/model/matrix_factorization.py:72-76 | a new pair adds exactly that pair to the pair set |
| DiGraph.AddEdgeNodes | pysmore/model/matrix_factorization.py:72-82 | the node list only grows, stays duplicate-free, and gains exactly u and v |
| DiGraph.ReplaceEdgeMembers | pysmore/model/matrix_factorization.py:72-76 | overwriting an existing pair's edge leaves exactly the new edge and the edges of all other pairs |
| DiGraph.InsertEdgeMembers | pysmore/model/matrix_factorization.py:72-76 | inserting a new pair's edge leaves exactly that edge and all old edges |
| DiGraph.AddEdgeCounts | pysmore/model/matrix_factorization.py:84-85 | `number_of_nodes` grows by the endpoints not yet present and `number_of_edges` by one exactly when the pair is new |
| DiGraph.AddWeightedEdgesFromSpec | pysmore/model/matrix_factorization.py:70-82 | a sequence of `add_edge` calls leaves a well-formed graph whose nodes are the old nodes plus all endpoints and whose pairs are the old pairs plus all named pairs |
| DiGraph.LastWriteWins | pysmore/model/matrix_factorization.py:70-82 | the edge of a call no later call overwrites is in the final graph with that call's weight |
| DiGraph.LoadStart | pysmore/model/matrix_factorization.py:50 | a graph-loading loop starts from the empty DiGraph, the graph of no calls |
| DiGraph.LoadStep | pysmore/model/matrix_factorization.py:70-82 | one more `add_edge` call in the loop extends the graph of the first i calls to that of the first i + 1 |
| DiGraph.LoadEnd | pysmore/model/matrix_factorization.py:70-82 | after the last call the loop has built the graph of the whole call sequence |
| DiGraph.ValidCounts | pysmore/model/matrix_factorization.py:84-85 | in a well-formed graph `number_of_nodes` counts distinct nodes and `number_of_edges` distinct (source, target) pairs |
| DiGraph.Handshake | pysmore/core/sampler/utils.py:19-49 | the per-node out-degrees, and the in-degrees, add up to the total edge weight, and the total degrees to twice that |
| DiGraph.UnweightedOutDegree | pysmore/core/sampler/utils.py:26 | without weights a node's out-degree is the number of its distinct successors |
| DiGraph.UnweightedInDegree | pysmore/core/sampler/utils.py:37 | without weights a node's in-degree is the number of its distinct predecessors |
| DiGraph.InsertInGroupContents | pysmore/model/matrix_factorization.py:72-76 | inserting a new edge into its group adds exactly that edge (as a multiset) |
| DiGraph.InsertInGroupGrouped | pysmore/model/matrix_factorization.py:72-76 | the insertion keeps the edges grouped by source in node order |
| Fixtures.MfGraph | tests/core/conftest.py:7-21 | the graph `mf_graph` has 4 nodes and 4 edges |
| Fixtures.MfGraphValid | tests/core/conftest.py:7-21 | the fixture graph is a well-formed DiGraph |
| Fixtures.MfGraphOutDegrees | tests/core/sampler/test_sampler_util.py:31-46 | the fixture's out-degrees are [0.4, 0.2, 0.4, 0] weighted and [2, 1, 1, 0] unweighted |
| Fixtures.MfGraphInDegrees | tests/core/sampler/test_sampler_util.py:49-64 | the fixture's in-degrees are [0, 0.1, 0.3, 0.6] weighted and [0, 1, 1, 2] unweighted |
| Fixtures.MfGraphDegrees | tests/core/sampler/test_sampler_util.py:67-82 | the fixture's total degrees are [0.4, 0.3, 0.7, 0.6] weighted and [2, 2, 2, 2] unweighted |
| Fixtures.MfGraphWeights | tests/core/sampler/test_sampler_util.py:85-100 | the fixture's edge weights in edge order are [0.1, 0.3, 0.2, 0.4], or all 1 unweighted |
| Matrix.ApplyStep | pysmore/core/optimizer/pair_optimizer.py:70-75 | the in-place `embeddings += lr * update` (or `lr * (update - λ * embeddings)`) leaves the array equal to `GradientStep` of its old contents |
| Matrix.GradientStepEntries | pysmore/core/optimizer/pair_optimizer.py:70-75 | without L2 each entry moves by exactly lr·u (subtracting it recovers the old entry); with L2 each entry is decayed by 1 − lr·λ and then moved by lr·u |
| Matrix.GradientStepZeroRate | pysmore/core/optimizer/pair_optimizer.py:70-75 | a zero learning rate leaves the embeddings unchanged, with or without L2 |
| Rates.MinimumRate | pysmore/core/optimizer/pair_optimizer.py:33 | `learning_rate_min` lies strictly between 0 and a non-zero initial rate, and is 0 for a zero rate |
| Rates.Floored | pysmore/core/optimizer/pair_optimizer.py:43-49 | `_update_learning_rate(x)` stores a rate at least the floor and at least x, and equal to one of them: their maximum |
| Rates.FlooredMonotone | pysmore/core/optimizer/pair_optimizer.py:43-49 | clamping keeps the order of rates, and clamping twice is clamping once |
| PysmoreSamplerUtils.Normalize | pysmore/core/sampler/utils.py:10-16 | the result has the input's length and is non-finite exactly when the input is non-empty with a zero sum |
| PysmoreSamplerUtils.NormalizeInverse | pysmore/core/sampler/utils.py:16 | multiplying a finite result by the input's sum recovers the input |
| PysmoreSamplerUtils.NormalizeSumsToOne | pysmore/core/sampler/utils.py:16 | with a non-zero sum the result is finite and adds up to 1 |
| PysmoreSamplerUtils.NormalizeRatios | pysmore/core/sampler/utils.py:16 | every ratio is kept: a[i]·out[j] = a[j]·out[i] |
| PysmoreSamplerUtils.NormalizeProbabilities | pysmore/core/sampler/utils.py:16 | non-negative input with a positive sum gives entries in [0, 1] |
| PysmoreSamplerUtils.NormalizeScaled | pysmore/core/sampler/utils.py:16 | scaling the input by a non-zero factor does not change the result |
| PysmoreSamplerUtils.NormalizeIdempotent | pysmore/core/sampler/utils.py:16 | normalising a normalised array changes nothing |
| PysmoreSamplerUtils.NormalizeExample | tests/core/sampler/test_sampler_util.py:16-28 | `normalize([2, 4, 4])` is [0.2, 0.4, 0.4] |
| PysmoreSamplerUtils.OutDegreeDistribution | pysmore/core/sampler/utils.py:19-27 | one entry per node |
| PysmoreSamplerUtils.InDegreeDistribution | pysmore/core/sampler/utils.py:30-38 | one entry per node |
| PysmoreSamplerUtils.DegreeDistribution | pysmore/core/sampler/utils.py:41-49 | one entry per node |
| PysmoreSamplerUtils.EdgeDistribution | pysmore/core/sampler/utils.py:52-65 | one entry per edge |
| PysmoreSamplerUtils.DistributionsFinite | pysmore/core/sampler/utils.py:19-65 | each distribution is finite exactly when the graph has no nodes (no edges, for the edge distribution) or a non-zero total weight |
| PysmoreSamplerUtils.OutDegreeShare | pysmore/core/sampler/utils.py:19-27 | node i's out-probability is its out-degree over the total weight |
| PysmoreSamplerUtils.InDegreeShare | pysmore/core/sampler/utils.py:30-38 | node i's in-probability is its in-degree over the total weight |
| PysmoreSamplerUtils.DegreeShare | pysmore/core/sampler/utils.py:41-49 | node i's degree probability is its in- plus out-degree over twice the total weight, the mean of its out- and in-probabilities |
| PysmoreSamplerUtils.EdgeDistributionProportional | pysmore/core/sampler/utils.py:52-65 | with a non-zero total weight the edge distribution is finite, adds up to 1, and keeps the ratio of every two edges' weights, so each edge is drawn in proportion to its weight |
| PysmoreSamplerUtils.UnweightedDistributions | pysmore/core/sampler/utils.py:56-57 | without weights every edge has probability 1/|E|, and the node distributions are finite iff there is an edge or no node |
| PysmoreSamplerUtils.OutDegreeExample | tests/core/sampler/test_sampler_util.py:31-46 | on `mf_graph`: [0.4, 0.2, 0.4, 0] weighted and [0.5, 0.25, 0.25, 0] unweighted |
| PysmoreSamplerUtils.InDegreeExample | tests/core/sampler/test_sampler_util.py:49-64 | on `mf_graph`: [0, 0.1, 0.3, 0.6] weighted and [0, 0.25, 0.25, 0.5] unweighted |
| PysmoreSamplerUtils.DegreeExample | tests/core/sampler/test_sampler_util.py:67-82 | on `mf_graph`: [0.2, 0.15, 0.35, 0.3] weighted, uniform unweighted |
| PysmoreSamplerUtils.EdgeExample | tests/core/sampler/test_sampler_util.py:85-100 | on `mf_graph`: [0.1, 0.3, 0.2, 0.4] weighted, uniform unweighted |
| SmorePronetUtils.OutDegreeDistribution | smore/pronet/utils.py:9-15 | one raw entry per node, weighted by default |
| SmorePronetUtils.InDegreeDistribution | smore/pronet/utils.py:18-24 | one raw entry per node, weighted by default |
| SmorePronetUtils.DegreeDistribution | smore/pronet/utils.py:27-33 | one raw entry per node, weighted by default |
| SmorePronetUtils.RawTotals | smore/pronet/utils.py:9-33 | the lists are not normalised: out- and in-lists add up to the total weight, the degree list to twice it, and each degree is out- plus in-degree |
| SmorePronetUtils.UnweightedTotals | smore/pronet/utils.py:15 | without weights the out-list adds up to the edge count and the degree list to twice it |
| SmorePronetUtils.UnweightedCounts | smore/pronet/utils.py:15-24 | without weights node i's entries are its numbers of distinct successors and predecessors |
| SmorePronetUtils.NormalisedInNewerTrainer | pysmore/core/sampler/utils.py:19-49 | the newer trainer's degree distributions are exactly these raw lists passed through `normalize` |
| SmorePronetUtils.OutDegreeExample | tests/pronet/test_sampler.py:20-51 | on `mf_graph`: [0.4, 0.2, 0.4, 0] weighted, [2, 1, 1, 0] unweighted |
| SmorePronetUtils.InDegreeExample | tests/pronet/test_sampler.py:54-85 | on `mf_graph`: [0, 0.1, 0.3, 0.6] weighted, [0, 1, 1, 2] unweighted |
| SmorePronetUtils.DegreeExample | tests/pronet/test_sampler.py:88-119 | on `mf_graph`: [0.4, 0.3, 0.7, 0.6] weighted, [2, 2, 2, 2] unweighted |
| PysmoreEdgeSampler.SearchSortedSplit | pysmore/core/sampler/edge_sampler.py:48-56 | in a sorted cdf the entries before the search result are at most u and the rest above it |
| PysmoreEdgeSampler.DrawIndexSpec | pysmore/core/sampler/edge_sampler.py:48-56 | for probabilities adding up to one and u in [0, 1), the drawn index is valid and its cumulative interval holds u |
| PysmoreEdgeSampler.DrawIndexUnique | pysmore/core/sampler/edge_sampler.py:48-56 | the drawn index is the one and only index whose interval holds u |
| PysmoreEdgeSampler.ZeroProbabilityNeverDrawn | pysmore/core/sampler/edge_sampler.py:48-56 | an index of probability zero is never drawn |
| PysmoreEdgeSampler.ChoiceSpec | pysmore/core/sampler/edge_sampler.py:48-60 | `choice` succeeds exactly when numpy's checks pass (size, non-empty population, finite matching non-negative p adding up to 1); then it returns `size` rows, row k the population element at the positive-probability index whose interval holds sample k |
| PysmoreEdgeSampler.WeightedCandidates | pysmore/core/sampler/edge_sampler.py:49-53 | at most one candidate per edge |
| PysmoreEdgeSampler.PairCandidates | pysmore/core/sampler/edge_sampler.py:59 | exactly one (source, target) candidate per edge |
| PysmoreEdgeSampler.WeightedCandidatesAlign | pysmore/core/sampler/edge_sampler.py:49-55 | the weighted candidates line up entry for entry with the edges (and so with `edge_distribution`) exactly when every edge carries a weight |
| PysmoreEdgeSampler.WeightedCandidatesAreEdges | pysmore/core/sampler/edge_sampler.py:49-53 | every weighted candidate is the triple of a weighted edge |
| PysmoreEdgeSampler.EdgeSampler.constructor | pysmore/core/sampler/edge_sampler.py:21-36 | keeps the graph and caches its counts, its degree and in-degree distributions and its edge distribution |
| PysmoreEdgeSampler.EdgeSampler.CachedFields | pysmore/core/sampler/edge_sampler.py:30-36 | `n_nodes` and `n_edges` count distinct nodes and pairs; the node distributions have one entry per node, the edge distribution one per edge |
| PysmoreEdgeSampler.EdgeSampler.SampleEdges | pysmore/core/sampler/edge_sampler.py:38-61 | a successful draw has exactly `size` rows, triples when `with_weight` and pairs otherwise; the sampler's fields are constants it cannot change |
| PysmoreEdgeSampler.EdgeSampler.SampledRowsAreEdges | pysmore/core/sampler/edge_sampler.py:47-60 | every sampled row is graph edge i for the positive-probability index i whose interval holds its sample; weighted rows come only from a graph whose edges all carry weights |
| PysmoreEdgeSampler.EdgeSampler.SampledEndpointsAreNodes | tests/core/sampler/test_edge_sampler.py:27-33 | the endpoints of every sampled row are nodes of the graph |
| PysmoreEdgeSampler.EdgeSampler.SampleEdgesSucceeds | pysmore/core/sampler/edge_sampler.py:47-60 | with non-negative weights of positive total, pair sampling always succeeds, and weighted sampling succeeds exactly when every edge is weighted |
| PysmoreEdgeSampler.EdgeSampler.EmptyGraphFails | pysmore/core/sampler/edge_sampler.py:47-60 | a graph without edges raises: an empty population for a positive size, a distribution not adding up to one for size 0 |
| PysmoreEdgeSampler.SampleFixture | tests/core/sampler/test_edge_sampler.py:9-33 | on `mf_graph` both modes return `size` rows, and size 0 returns no rows |
| SmoreCoreSampler.EdgeSampler.constructor | smore/core/sampler.py:18-36 | keeps the graph, its node and edge counts, the raw edge weights and the two distributions of the unseen helper module |
| SmoreCoreSampler.EdgeSampler.SampleEdge | smore/core/sampler.py:38-43 | the stub returns None and changes nothing |
| SmoreCoreSampler.EdgeSampler.CachedFields | smore/core/sampler.py:27-36 | the counts are of distinct nodes and pairs; the edge list has one entry per edge holding its weight or 1, and adds up to the total weight, not to 1 |
| SmoreCoreSampler.SamplerFixture | smore/core/sampler.py:27-36 | on `mf_graph`: 4 nodes, 4 edges and the list [0.1, 0.3, 0.2, 0.4] |
| SmorePronetSampler.EdgeSampler.constructor | smore/pronet/sampler.py:15-30 | caches the weighted degree list, the weighted in-degree list and the raw edge weights |
| SmorePronetSampler.EdgeSampler.SampleEdge | smore/pronet/sampler.py:32-38 | `pass`: returns None and changes nothing |
| SmorePronetSampler.EdgeSampler.CachedTotals | smore/pronet/sampler.py:25-30 | one entry per node or per edge; the in-degree list adds up to the total weight and the degree list to twice it, so neither is normalised |
| SmorePronetSampler.SamplerFixture | smore/pronet/sampler.py:24-30 | on `mf_graph`: degrees [0.4, 0.3, 0.7, 0.6], in-degrees [0, 0.1, 0.3, 0.6], weights [0.1, 0.3, 0.2, 0.4] |
| PysmoreLossFunction.DotSymmetric | pysmore/core/optimizer/helper/loss_function.py:13-17 | the dot product is symmetric on equal lengths |
| PysmoreLossFunction.DotSelfNonNegative | pysmore/core/optimizer/helper/loss_function.py:13-17 | a vector's dot product with itself is non-negative |
| PysmoreLossFunction.DotIgnoresTail | pysmore/core/optimizer/helper/loss_function.py:17 | only v1's length counts |
| PysmoreLossFunction.DotExamples | tests/core/optimizer/helper/test_loss_function.py:13-25 | [1, 2]·[1, 2] = 5 and [0.1, 0.3, 0.2]·[0.2, 0.4, 0.4] = 0.22 |
| PysmoreLossFunction.TruncTowardZero | pysmore/core/optimizer/helper/loss_function.py:31-32 | `int()` truncates toward zero, symmetrically for negative values |
| PysmoreLossFunction.RowIndex | pysmore/core/optimizer/helper/loss_function.py:31-35 | an in-bounds index, negative ones counting from the end, names a row |
| PysmoreLossFunction.CoefficientStep | pysmore/core/optimizer/helper/loss_function.py:38-39 | one more edge adds its gradient to a row's factor once per endpoint at that row |
| PysmoreLossFunction.UpdateMatrix | pysmore/core/optimizer/helper/loss_function.py:28 | the update has the embeddings' shape |
| PysmoreLossFunction.AccumulateRows | pysmore/core/optimizer/helper/loss_function.py:30-39 | row r of the accumulation is its factor (gradients of edges with r as source plus those with r as target) times embedding row r |
| PysmoreLossFunction.UpdateMatrixRows | pysmore/core/optimizer/helper/loss_function.py:28-39 | row r of the kernel's update is that factor over the batch times embedding row r |
| PysmoreLossFunction.AddScaledRow | pysmore/core/optimizer/helper/loss_function.py:38-39 | the in-place column loop leaves the array equal to `AddToRow` of its old contents |
| PysmoreLossFunction.ComputeDotProductUpdate | pysmore/core/optimizer/helper/loss_function.py:20-40 | the returned array has the embeddings' shape and equals `UpdateMatrix` of the embeddings, and the loss is the sum of the gradients |
| PysmoreLossFunction.KernelStart | pysmore/core/optimizer/helper/loss_function.py:28-29 | the zero matrix and zero loss are the result for the empty prefix of the batch |
| PysmoreLossFunction.KernelStep | pysmore/core/optimizer/helper/loss_function.py:30-39 | one pass adds edge k's gradient to the loss and gradient × row to the rows of both endpoints, extending the result to the first k + 1 edges |
| PysmoreLossFunction.KernelEnd | pysmore/core/optimizer/helper/loss_function.py:40 | after the last edge the prefix result is the whole batch's |
| PysmoreLossFunction.EmptyBatch | pysmore/core/optimizer/helper/loss_function.py:28-30 | an empty batch gives the zero matrix and loss 0 |
| PysmoreLossFunction.UntouchedCoefficient | pysmore/core/optimizer/helper/loss_function.py:38-39 | a row no edge touches has factor 0 |
| PysmoreLossFunction.UntouchedRowIsZero | pysmore/core/optimizer/helper/loss_function.py:28 | rows of nodes in no edge stay all zero |
| PysmoreLossFunction.CoefficientAppend | pysmore/core/optimizer/helper/loss_function.py:30-39 | the factors of a split batch add up: each edge contributes independently |
| PysmoreLossFunction.EndpointsAppend | pysmore/core/optimizer/helper/loss_function.py:31-32 | the rows a concatenated batch touches are those of its parts |
| PysmoreLossFunction.TotalLossAppend | pysmore/core/optimizer/helper/loss_function.py:37 | the gradients and the loss of a concatenated batch are those of its parts |
| PysmoreLossFunction.SelfLoopCountsTwice | pysmore/core/optimizer/helper/loss_function.py:38-39 | a self-loop adds its gradient twice to its node's factor |
| PysmoreLossFunction.ExampleBatch | tests/core/optimizer/helper/test_loss_function.py:28-36 | the fixture batch's gradients against the fixture embeddings |
| PysmoreLossFunction.KernelExample | tests/core/optimizer/helper/test_loss_function.py:28-43 | the fixture gives the update [[-1, -1], [-1, 0], [0, 0]] and loss -1 |
| PysmorePairOptimizer.AnnealTarget | pysmore/core/optimizer/pair_optimizer.py:77-79 | the anneal argument raises ZeroDivisionError exactly when `total_update_times * sample_size` is zero |
| PysmorePairOptimizer.RateAfter | pysmore/core/optimizer/pair_optimizer.py:77-79 | the rate after an update is never below the floor |
| PysmorePairOptimizer.AnnealTargetRange | pysmore/core/optimizer/pair_optimizer.py:78 | with a positive product the target starts at 1, reaches 0 at the product and stays in [0, 1] up to it |
| PysmorePairOptimizer.AnnealTargetDecreasing | pysmore/core/optimizer/pair_optimizer.py:77-79 | the target never increases as updates accumulate |
| PysmorePairOptimizer.RateNonIncreasing | pysmore/core/optimizer/pair_optimizer.py:76-79 | between post-update values the rate never increases, and from the product on it sits at a non-negative floor |
| PysmorePairOptimizer.FirstUpdateRaisesRate | pysmore/core/optimizer/pair_optimizer.py:76-79 | with lr = 0.025, 5 update times and sample size 10^6 the first update sets the rate to 0.9999998, above the initial rate |
| PysmorePairOptimizer.PairOptimizer.constructor | pysmore/core/optimizer/pair_optimizer.py:23-41 | rate lr, floor lr·0.0001, λ, the counters at 0, loss 0 and a fresh node_num × dimension embedding matrix holding the initial draw |
| PysmorePairOptimizer.PairOptimizer.UpdateLearningRate | pysmore/core/optimizer/pair_optimizer.py:43-49 | the rate becomes x raised to the floor; count and loss are unchanged |
| PysmorePairOptimizer.PairOptimizer.ResetLoss | pysmore/core/optimizer/pair_optimizer.py:51-55 | the loss becomes 0; rate and count are unchanged |
| PysmorePairOptimizer.PairOptimizer.Update | pysmore/core/optimizer/pair_optimizer.py:57-79 | loss = the kernel's loss; embeddings take the gradient step with the pre-call rate (with λ decay under L2); count + 1; rate re-annealed from the new count, or ZeroDivisionError with the rate unchanged |
| SmorePairOptimizer.AnnealTarget | smore/core/optimizer/pair_optimizer.py:53-58 | the anneal argument raises ZeroDivisionError exactly when `total_update_times` is zero |
| SmorePairOptimizer.RateAfter | smore/core/optimizer/pair_optimizer.py:53-58 | the rate after a call is never below the floor |
| SmorePairOptimizer.PinnedAtFloor | smore/core/optimizer/pair_optimizer.py:53-58 | for `total_update_times` ≤ 10^6 and a positive rate, the target is ≤ 0 after every call and the rate sits at its floor |
| SmorePairOptimizer.FixtureRate | tests/core/optimizer/conftest.py:7-17 | with the fixture's 5 update times and the default rate, the rate is 2.5e-6 after every call |
| SmorePairOptimizer.PairOptimizer.constructor | smore/core/optimizer/pair_optimizer.py:15-28 | keeps the caller's embedding array itself, sets rate, floor, λ, count 0, and a fresh zero loss matrix of the same shape |
| SmorePairOptimizer.PairOptimizer.UpdateLearningRate | smore/core/optimizer/pair_optimizer.py:30-36 | the rate becomes x raised to the floor; the count is unchanged |
| SmorePairOptimizer.PairOptimizer.DotProductLoss | smore/core/optimizer/pair_optimizer.py:38-58 | the aliased embeddings take the gradient step with the kernel's matrix and the pre-call rate; the loss matrix keeps its zeros; count + 1; rate re-annealed, or ZeroDivisionError with the rate unchanged |
| PysmoreMatrixFactorization.Validate | pysmore/model/matrix_factorization.py:39-45 | the checks pass exactly for a numpy array with 2 or 3 columns; anything else is a ValueError |
| PysmoreMatrixFactorization.InvalidInputs | tests/model/test_matrix_factorization.py:82-123 | 4-column and 1-column arrays and a plain list raise ValueError; 2- and 3-column arrays pass |
| PysmoreMatrixFactorization.AsDouble | pysmore/model/matrix_factorization.py:47-49 | `astype(np.double)` keeps shape and values and makes the element type double |
| PysmoreMatrixFactorization.AddRows | pysmore/model/matrix_factorization.py:70-82 | the loop's `add_edge` calls, `int()` ids and weight 1 for 2-column rows, build exactly `BuiltGraph` |
| PysmoreMatrixFactorization.BuiltGraphCounts | pysmore/model/matrix_factorization.py:84-85 | the built graph is well formed, its nodes are exactly the truncated ids and its pairs exactly the rows' distinct pairs, so `node_num` and `edge_num` count distinct ids and pairs |
| PysmoreMatrixFactorization.BuiltGraphEdge | pysmore/model/matrix_factorization.py:71-82 | each row's edge is in the graph, with the row's weight or with 1 for a 2-column row, unless a later row names the same pair |
| PysmoreMatrixFactorization.TruncWhole | pysmore/model/matrix_factorization.py:73-74 | `int()` of a whole number is that number |
| PysmoreMatrixFactorization.CountFixtureFour | tests/model/test_matrix_factorization.py:32-79 | the four weighted rows give 4 nodes and 4 edges |
| PysmoreMatrixFactorization.CountFixtureSix | tests/model/test_matrix_factorization.py:32-79 | five weighted rows give 6 nodes and 5 edges |
| PysmoreMatrixFactorization.CountFixtureEight | tests/model/test_matrix_factorization.py:32-79 | six 2-column rows give 8 nodes and 6 edges |
| PysmoreMatrixFactorization.FixtureIdsAreNotRows | pysmore/core/optimizer/helper/loss_function.py:31-35 | the first counting fixture (ids 1 to 4, 4 nodes) builds a graph whose id 4 is no row of the 4-row embedding matrix: the kernel's `embeddings[int(id)]` is out of range for it |
| PysmoreMatrixFactorization.SampledBatchInBounds | pysmore/model/matrix_factorization.py:95-96 | a sampled weighted batch only names rows of the embedding matrix when the ids are rows |
| PysmoreMatrixFactorization.BuiltEdgesWeighted | pysmore/model/matrix_factorization.py:72-82 | every edge the model's `add_edge` calls create carries a weight, so weighted sampling lines up |
| PysmoreMatrixFactorization.Step | pysmore/model/matrix_factorization.py:94-96 | one pass keeps the embeddings' shape and adds at most one to the count; a pass that returns has counted and re-annealed |
| PysmoreMatrixFactorization.Run | pysmore/model/matrix_factorization.py:94-96 | the passes keep the embeddings' shape |
| PysmoreMatrixFactorization.RunCounts | pysmore/model/matrix_factorization.py:94-96 | a run that completes makes exactly one update per pass and ends at the annealed rate for the new count; one that stops makes at most that many |
| PysmoreMatrixFactorization.RunStopsAtFailure | pysmore/model/matrix_factorization.py:94-96 | an exception ends training: later passes change nothing |
| PysmoreMatrixFactorization.RunNext | pysmore/model/matrix_factorization.py:94-96 | a run still going takes its next pass from where it stands |
| PysmoreMatrixFactorization.RunSucceeds | pysmore/model/matrix_factorization.py:94-96 | with weighted edges of positive total and a non-zero product, every pass succeeds |
| PysmoreMatrixFactorization.StepPasses | pysmore/model/matrix_factorization.py:95-96 | on such a graph one pass draws and updates without an exception |
| PysmoreMatrixFactorization.StepUpdates | pysmore/model/matrix_factorization.py:95-96 | a pass whose draw succeeds is `update(batch, l2_reg=True)`: the L2 step with the current rate, the batch loss, count + 1, the annealed rate or ZeroDivisionError |
| PysmoreMatrixFactorization.DrawFails | pysmore/model/matrix_factorization.py:95 | a draw that raises ends training where it stands |
| PysmoreMatrixFactorization.UpdateAdvances | pysmore/model/matrix_factorization.py:96 | an update that returns lets training go on from its new state; one that raises ends it there |
| PysmoreMatrixFactorization.TrainStep | pysmore/model/matrix_factorization.py:94-96 | one pass on the objects: sample `sample_size` weighted rows, update with L2, and either reach the next pass or end with the exception |
| PysmoreMatrixFactorization.TrainLoop | pysmore/model/matrix_factorization.py:94-96 | the loop leaves the optimizer in the state `Run` reaches over all passes, with its outcome |
| PysmoreMatrixFactorization.MatrixFactorization.constructor | pysmore/model/matrix_factorization.py:26-63 | the double edge list, the built graph with its counts, a fresh sampler, and an optimizer exactly when there is a node, with node_num rows and the given rate, λ and counters |
| PysmoreMatrixFactorization.MatrixFactorization.BuildGraph | pysmore/model/matrix_factorization.py:65-87 | leaves the built graph, well formed, and sets `node_num` and `edge_num` to its counts; nothing else changes |
| PysmoreMatrixFactorization.MatrixFactorization.Train | pysmore/model/matrix_factorization.py:89-103 | `sample_times` passes of draw-and-update until the first exception; without an optimizer the first pass raises (the empty graph cannot be sampled) |
| PysmoreMatrixFactorization.Load | pysmore/model/matrix_factorization.py:26-63 | fails exactly when the checks fail, with ValueError; otherwise returns a fresh built model over `BuiltGraph` |
| SmoreMatrixFactorization.Validate | smore/model/matrix_factorization.py:30-32 | ValueError exactly for a non-array, AssertionError exactly for an array without 3 columns, pass exactly for a 3-column array |
| SmoreMatrixFactorization.InvalidInputs | smore/model/matrix_factorization.py:30-32 | 1-, 2- and 4-column arrays fail the assertion (the newer trainer accepts 2 columns); a plain list is a ValueError in both |
| SmoreMatrixFactorization.AcceptsFewer | smore/model/matrix_factorization.py:30-32 | what this model accepts the newer one accepts, and of the newer one's inputs it accepts exactly the 3-column ones |
| SmoreMatrixFactorization.AddRows | smore/model/matrix_factorization.py:44-47 | the loop's calls, ids kept as doubles, build exactly `BuiltGraph` |
| SmoreMatrixFactorization.BuiltGraphCounts | smore/model/matrix_factorization.py:48-49 | the built graph is well formed, its nodes are exactly the rows' ids and its pairs exactly their distinct pairs, so the counts are of distinct ids and pairs |
| SmoreMatrixFactorization.BuiltGraphEdge | smore/model/matrix_factorization.py:45-46 | each row's edge is in the graph with the row's weight unless a later row names the same pair |
| SmoreMatrixFactorization.FractionalIdsKept | smore/model/matrix_factorization.py:46 | an id 1.5 stays a node 1.5 here, where the newer trainer truncates it to 1 |
| SmoreMatrixFactorization.MatrixFactorization.constructor | smore/model/matrix_factorization.py:23-38 | stores the dimension, the double edge list, the built graph with its counts and a fresh pronet sampler over it |
| SmoreMatrixFactorization.MatrixFactorization.BuildGraph | smore/model/matrix_factorization.py:40-51 | leaves the built graph, well formed, and sets both counts; nothing else changes |
| SmoreMatrixFactorization.MatrixFactorization.Train | smore/model/matrix_factorization.py:53-56 | `train` changes nothing |
| SmoreMatrixFactorization.Load | smore/model/matrix_factorization.py:23-38 | fails exactly when the checks fail, with the check's exception; otherwise returns a fresh built model over `BuiltGraph` |
| SmoreMatrixFactorization.MfRows | tests/core/conftest.py:12-19 | the rows of `mf_graph` are 3-column rows |
| SmoreMatrixFactorization.MfRowsBuildFixture | tests/core/conftest.py:7-21 | loading those rows builds exactly the fixture graph `mf_graph` |
| SmoreMatrixFactorization.MfModel | tests/core/conftest.py:7-21 | the model built from those rows has the fixture graph, 4 nodes, 4 edges, and a sampler with lists [0.4, 0.3, 0.7, 0.6], [0, 0.1, 0.3, 0.6] and [0.1, 0.3, 0.2, 0.4] |

## Left out

- Randomness: numpy's `default_rng()` state is left out. The uniform samples each draw consumes and the initial uniform embedding matrix are parameters.
- Floating point: all arithmetic is exact over `real`, so nothing is claimed about rounding.
- `normalize`'s tolerance: numpy's `choice` accepts probabilities whose sum is within a tolerance of 1; the model demands an exact 1.
- NaN and infinity: `normalize` of a zero sum is kept as one opaque non-finite value, not entry by entry.
- numba: the JIT, `prange` and the threading-layer setting are left out. The kernel is compiled with `parallel=False` and is modelled as the sequential loop it is.
- `smore.core.utils` and `smore.core.optimizer.helper.loss_function` are not part of this model. Their functions are parameters of the older core sampler and the older optimizer.
- Logging and progress bars: `loguru` and `tqdm` calls are left out.
- Scripts: the `__main__` benchmark blocks are left out.
- Tests of functions that do not exist: `compute_raw_dot_product_loss` and `compute_loss` are not in the source, so those tests are not modelled.
- `edge_list.shape[1]` of a 1-D array raises IndexError before any check. The model's edge list is always 2-D.
- PysmorePairOptimizer.PairOptimizer.constructor: `dimension` is a `nat`, so numpy's ValueError from `uniform(size=(node_num, dimension))` for a negative dimension is not modelled. The same holds for `PysmoreMatrixFactorization.MatrixFactorization.constructor` and `PysmoreMatrixFactorization.Load`, which pass their `dimension` on.
- PysmoreMatrixFactorization.MatrixFactorization.Train: it requires node ids to be valid rows of the embedding matrix, as the kernel's indexing needs. The source does not check this, and numba's behaviour on an out-of-range index is not modelled. The ids of the source's own counting fixtures break this requirement (`PysmoreMatrixFactorization.FixtureIdsAreNotRows`).
- PysmoreLossFunction.ComputeDotProductUpdate: it requires in-range indices, for the same reason.
- Integer width: `int()` of a double is modelled as exact truncation, so ids beyond 64-bit range are not modelled.
- The `rand_generator` field and the `UpdateResult` dataclass are not modelled as state. The first is the left-out rng. The second only carries the kernel's two results, which `Update` uses directly.
- `BaseModel` is not modelled as a class. It only stores `dimension`, which both models keep as a field.
- `smore/core/schema.py` holds only type aliases and is not modelled.
- The `tasks` scripts are not modelled.
