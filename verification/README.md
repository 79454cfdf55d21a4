# jkernelmachines core in Dafny

This project models four pieces of the jkernelmachines Java library.

- **Random-split cross-validation** (`cross_validation.dfy`, with `samples.dfy` and `statistics.dfy`).
  - The harness runs `nbTest` repeats with one `java.util.Random` seeded from `seed`.
  - Each repeat shuffles the stored sample list in place. It builds a training list and a testing list, asks the evaluator for the classifier's score on that split, and stores the score at `results[k]`.
  - In balanced mode the training list is the first `(int)(|pos| * trainPercent)` positives (label 1) followed by the first `(int)(|neg| * trainPercent)` negatives.
  - In unbalanced mode it is the first `(int)(trainPercent * |list|)` samples.
  - The testing list is what remains after the value-based `removeAll` of the training list.
  - `getAverageScore` and `getStdDevScore` summarise the stored scores as the mean and the population standard deviation.
- **The bounded bag kernel `SubListKernel2`** (`sub_list_kernel.dfy`).
  - The score is the sum of the base-kernel values above `eps` over the index ranges `[fr1, to1) x [fr2, to2)`, divided by the product of the range sizes.
  - `valueOf` clamps the stored upper bounds to the list lengths, and the clamp is permanent.
  - Edge cases are part of the model:
    - a negative lower bound raises `IndexOutOfBoundsException`, but only when both ranges hold indices;
    - the value is NaN (0/0) exactly when the product of the range sizes is 0; a reversed range with a non-zero product gives 0.
- **The one-component Gaussian kernel `IndexDoubleGaussL2`** (`index_gauss_kernel.dfy`).
  - The value is `exp(-gamma * (x[ind] - y[ind])^2)`.
  - When both components are zero it returns 1 without calling `exp`.
  - Self-similarity is always 1.
- **The multiple-kernel container contract `MKL`** (`mkl.dfy`).
  - The container holds a list of kernels, an aligned array of weights, and a kernel-to-weight map.
  - All three are views of one sequence of (kernel, weight) pairs.
  - `addKernel` adds a kernel. Its weight and position are left to the implementation.

The modelling choices:

- Objects whose fields change are Dafny classes: the harness, `SubListKernel2`, `IndexDoubleGaussL2`, the MKL container, and a Java `List` held by reference (`SampleList`).
- Every method that models a source method is proved against a specification function. For example, `Run` leaves the list and the results equal to `Repeats(...)`, the state after `nbTest` repeats, and `SubListKernel2.ValueOf` returns `BagValue(...)`. The properties are proved about those functions as lemmas. `Mkl.AddKernel` is the exception: the interface fixes no result, so its contract is relational. The client methods `ClampPersists`, `RunLeavesCallerListAlone`, `SettersAreIndependent` and `AddKernelGrowsByOne` state what a sequence of calls does.
- The following are parameters of the model:
  - `java.util.Random`: a seeding function and a `nextInt` function;
  - the evaluator: a pure score function of the classifier, the training list and the testing list;
  - `Math.sqrt`, `Math.exp` and the base kernel.
- Java `double` is modelled as `real`, and NaN results as `None`/`NotANumber`.

## Model

| member | source | states |
|---|---|---|
| Samples.Filter | src/main/java/net/jkernelmachines/evaluation/RandomSplitCrossValidation.java:98-105 | a filtered list is never longer than its input |
| Samples.FilterMember | src/main/java/net/jkernelmachines/evaluation/RandomSplitCrossValidation.java:98-105 | a value is in the filtered list exactly when it is in the input and the test accepts it |
| Samples.FilterAppend | src/main/java/net/jkernelmachines/evaluation/RandomSplitCrossValidation.java:98-105 | filtering a concatenation filters each part, so the kept elements keep their order |
| Samples.FilterCount | src/main/java/net/jkernelmachines/evaluation/RandomSplitCrossValidation.java:111 | an accepted value keeps every copy it had; a rejected value keeps none |
| Samples.FilterComplement | src/main/java/net/jkernelmachines/evaluation/RandomSplitCrossValidation.java:98-105 | a filter and its complement together are a permutation of the input |
| Samples.FilterKeepsAll | src/main/java/net/jkernelmachines/evaluation/RandomSplitCrossValidation.java:98-105 | a filter that accepts every element returns the input unchanged |
| Samples.FilterKeepsNone | src/main/java/net/jkernelmachines/evaluation/RandomSplitCrossValidation.java:98-105 | a filter that rejects every element returns the empty list |
| Samples.PartitionByLabel | src/main/java/net/jkernelmachines/evaluation/RandomSplitCrossValidation.java:96-105 | positives followed by negatives are a permutation of the list; the positives are exactly the samples labelled 1 and the negatives exactly the others |
| Samples.PartitionSizes | src/main/java/net/jkernelmachines/evaluation/RandomSplitCrossValidation.java:96-105 | the two classes together are as long as the list |
| Samples.RemoveAllCount | src/main/java/net/jkernelmachines/evaluation/RandomSplitCrossValidation.java:111 | `removeAll` works by value: a removed value loses all its copies and any other value keeps all of its copies |
| Samples.RemoveAllMembers | src/main/java/net/jkernelmachines/evaluation/RandomSplitCrossValidation.java:117 | a value survives `removeAll` exactly when it is in the list and not in the removed list |
| Statistics.SumBounds | src/main/java/net/jkernelmachines/evaluation/RandomSplitCrossValidation.java:142-145 | the sum of N values between lo and hi lies between N*lo and N*hi |
| Statistics.MeanWithinBounds | src/main/java/net/jkernelmachines/evaluation/RandomSplitCrossValidation.java:137-148 | the mean of a non-empty list of values lies between their bounds |
| Statistics.SquaredDeviationsNonNegative | src/main/java/net/jkernelmachines/evaluation/RandomSplitCrossValidation.java:158-159 | the sum of squared deviations is at least 0, and it is 0 exactly when every value equals the centre |
| Statistics.SumOfConstant | src/main/java/net/jkernelmachines/evaluation/RandomSplitCrossValidation.java:142-145 | N copies of c sum to N*c |
| Statistics.VarianceNonNegative | src/main/java/net/jkernelmachines/evaluation/RandomSplitCrossValidation.java:151-162 | the variance of a non-empty list exists and is at least 0 |
| Statistics.VarianceZeroIffConstant | src/main/java/net/jkernelmachines/evaluation/RandomSplitCrossValidation.java:151-162 | the variance is 0 exactly when all scores are equal |
| CrossValidation.ClassCountsFit | src/main/java/net/jkernelmachines/evaluation/RandomSplitCrossValidation.java:87-109 | once trunc(n * trainPercent) is a valid prefix length of the list, trunc(m * trainPercent) is one for any class of m <= n samples, so the `subList` calls never go out of range |
| CrossValidation.SplitIsPartition | src/main/java/net/jkernelmachines/evaluation/RandomSplitCrossValidation.java:95-118 | in both modes: no testing sample equals a training sample, and a sample is in the list exactly when it is in the training list or the testing list |
| CrossValidation.BalancedSplitCounts | src/main/java/net/jkernelmachines/evaluation/RandomSplitCrossValidation.java:107-110 | the balanced training list holds exactly the first trunc(#pos * p) positives and the first trunc(#neg * p) negatives of the shuffled list, in order |
| CrossValidation.LabelledConcat | src/main/java/net/jkernelmachines/evaluation/RandomSplitCrossValidation.java:107-110 | a block of positives followed by a block of negatives splits back into the two blocks |
| CrossValidation.BalancedSixtyForty | src/main/java/net/jkernelmachines/evaluation/RandomSplitCrossValidation.java:62-110 | with 60 positives, 40 negatives and trainPercent 0.7, every balanced training list has 42 positives and 28 negatives |
| CrossValidation.FilterNoDuplicates | src/main/java/net/jkernelmachines/evaluation/RandomSplitCrossValidation.java:98-105 | splitting a list without repeated samples gives classes without repeated samples |
| CrossValidation.RemoveAllDisjoint | src/main/java/net/jkernelmachines/evaluation/RandomSplitCrossValidation.java:111 | removing values the list does not hold changes nothing |
| CrossValidation.RemoveAllCovered | src/main/java/net/jkernelmachines/evaluation/RandomSplitCrossValidation.java:111 | removing every value the list holds empties it |
| CrossValidation.RemoveLeadingBlocks | src/main/java/net/jkernelmachines/evaluation/RandomSplitCrossValidation.java:107-111 | removing two leading blocks from duplicate-free, disjoint lists leaves exactly their tails |
| CrossValidation.UnbalancedSplitWithoutDuplicates | src/main/java/net/jkernelmachines/evaluation/RandomSplitCrossValidation.java:114-118 | without repeated samples the unbalanced testing list is exactly the samples after the training prefix, and the two lists together are as long as the list |
| CrossValidation.BalancedSplitWithoutDuplicates | src/main/java/net/jkernelmachines/evaluation/RandomSplitCrossValidation.java:95-112 | without repeated samples the balanced testing list is the positives after their prefix followed by the negatives after theirs, and the two lists together are as long as the list |
| CrossValidation.Draw | src/main/java/net/jkernelmachines/evaluation/RandomSplitCrossValidation.java:88-92 | a `nextInt(bound)` draw lies in [0, bound) |
| CrossValidation.Swap | src/main/java/net/jkernelmachines/evaluation/RandomSplitCrossValidation.java:92 | a swap keeps the length of the list |
| CrossValidation.ShuffleFrom | src/main/java/net/jkernelmachines/evaluation/RandomSplitCrossValidation.java:92 | the shuffle's swap loop keeps the length of the list |
| CrossValidation.ShufflePermutes | src/main/java/net/jkernelmachines/evaluation/RandomSplitCrossValidation.java:92 | a shuffle only reorders: every sample keeps its number of copies |
| CrossValidation.SampleList.constructor | src/main/java/net/jkernelmachines/evaluation/RandomSplitCrossValidation.java:77-78 | a new list holds the given samples |
| CrossValidation.Shuffle | src/main/java/net/jkernelmachines/evaluation/RandomSplitCrossValidation.java:92 | the in-place swap loop leaves the list and the generator where the shuffle specification puts them |
| CrossValidation.SplitByLabel | src/main/java/net/jkernelmachines/evaluation/RandomSplitCrossValidation.java:96-105 | the loop builds exactly the positives and the negatives of the list, in order |
| CrossValidation.BuildSplit | src/main/java/net/jkernelmachines/evaluation/RandomSplitCrossValidation.java:93-118 | the lists built by `run` are the split that the specification gives for the current order and mode |
| CrossValidation.Repeat | src/main/java/net/jkernelmachines/evaluation/RandomSplitCrossValidation.java:89-131 | one repeat keeps the number of samples and records exactly one more score |
| CrossValidation.Repeats | src/main/java/net/jkernelmachines/evaluation/RandomSplitCrossValidation.java:84-132 | n repeats keep the number of samples and record exactly n more scores |
| CrossValidation.RepeatsPermute | src/main/java/net/jkernelmachines/evaluation/RandomSplitCrossValidation.java:89-132 | after any number of repeats the list is a permutation of the original samples |
| CrossValidation.RepeatsKeepEarlierScores | src/main/java/net/jkernelmachines/evaluation/RandomSplitCrossValidation.java:129 | later repeats never overwrite a recorded score |
| CrossValidation.ScoresInRepeatOrder | src/main/java/net/jkernelmachines/evaluation/RandomSplitCrossValidation.java:129 | score k is the evaluator's score on the split of repeat k |
| CrossValidation.EveryRepeatSplitsTheSamples | src/main/java/net/jkernelmachines/evaluation/RandomSplitCrossValidation.java:89-132 | in every repeat the two lists are disjoint by value, every original sample value is in one of them, and they hold no other value (repeated copies may be lost to the value-based removal) |
| CrossValidation.RandomSplitCrossValidation.constructor | src/main/java/net/jkernelmachines/evaluation/RandomSplitCrossValidation.java:75-80 | the harness keeps a fresh copy of the caller's list; the defaults are balanced, seed 0, 70% training, 20 repeats and no results |
| CrossValidation.RandomSplitCrossValidation.Run | src/main/java/net/jkernelmachines/evaluation/RandomSplitCrossValidation.java:83-134 | nbTest < 0 fails at the array allocation with nothing changed; an unfit training size fails after one shuffle with zero results; otherwise the list and the results are those of nbTest repeats from the seeded generator |
| CrossValidation.RandomSplitCrossValidation.RunRepeats | src/main/java/net/jkernelmachines/evaluation/RandomSplitCrossValidation.java:84-132 | the countdown loop stops early exactly when the training size does not fit; otherwise it leaves the state of nbTest repeats |
| CrossValidation.RandomSplitCrossValidation.RunOnce | src/main/java/net/jkernelmachines/evaluation/RandomSplitCrossValidation.java:89-131 | one loop pass turns the state of `index` repeats into the state of `index + 1` repeats, or fails on the first pass only |
| CrossValidation.RandomSplitCrossValidation.EvaluateSplit | src/main/java/net/jkernelmachines/evaluation/RandomSplitCrossValidation.java:120-129 | the stored score is the evaluator's score on the specified split of the current order |
| CrossValidation.RandomSplitCrossValidation.GetAverageScore | src/main/java/net/jkernelmachines/evaluation/RandomSplitCrossValidation.java:137-148 | the mean of the stored scores; NaN before any run or with no scores |
| CrossValidation.RandomSplitCrossValidation.GetStdDevScore | src/main/java/net/jkernelmachines/evaluation/RandomSplitCrossValidation.java:151-162 | the square root of the population variance of the stored scores; NaN before any run or with no scores |
| CrossValidation.RandomSplitCrossValidation.SetClassifier | src/main/java/net/jkernelmachines/evaluation/RandomSplitCrossValidation.java:181-183 | the getter then returns the new classifier |
| CrossValidation.RandomSplitCrossValidation.SetList | src/main/java/net/jkernelmachines/evaluation/RandomSplitCrossValidation.java:197-199 | the harness then holds the caller's list object itself, not a copy |
| CrossValidation.RandomSplitCrossValidation.SetTrainPercent | src/main/java/net/jkernelmachines/evaluation/RandomSplitCrossValidation.java:213-215 | the getter then returns the new percentage |
| CrossValidation.RandomSplitCrossValidation.SetNbTest | src/main/java/net/jkernelmachines/evaluation/RandomSplitCrossValidation.java:229-231 | the getter then returns the new repeat count |
| CrossValidation.RandomSplitCrossValidation.SetSeed | src/main/java/net/jkernelmachines/evaluation/RandomSplitCrossValidation.java:237-239 | the getter then returns the new seed |
| CrossValidation.RandomSplitCrossValidation.SetBalanced | src/main/java/net/jkernelmachines/evaluation/RandomSplitCrossValidation.java:253-255 | the getter then returns the new mode |
| CrossValidation.RunLeavesCallerListAlone | src/main/java/net/jkernelmachines/evaluation/RandomSplitCrossValidation.java:75-80 | because the constructor copies the list, a run never reorders the caller's list |
| BagKernel.Clamp | src/main/java/net/jkernelmachines/kernel/extra/bag/SubListKernel2.java:80-83 | a clamped bound is the old bound or the list length, whichever is smaller |
| BagKernel.RowSumNonNegative | src/main/java/net/jkernelmachines/kernel/extra/bag/SubListKernel2.java:86-90 | with eps >= 0, one row of the thresholded sum is at least 0 |
| BagKernel.BagSumNonNegative | src/main/java/net/jkernelmachines/kernel/extra/bag/SubListKernel2.java:85-91 | with eps >= 0, the thresholded sum is at least 0 |
| BagKernel.ValueNonNegative | src/main/java/net/jkernelmachines/kernel/extra/bag/SubListKernel2.java:78-94 | with eps >= 0, every numeric kernel value is at least 0, whatever the base kernel |
| BagKernel.EmptyRangeValue | src/main/java/net/jkernelmachines/kernel/extra/bag/SubListKernel2.java:85-93 | a range without indices adds nothing: the value is NaN when the product of the range sizes is 0, and 0 when a reversed range makes it non-zero |
| BagKernel.RowSumExact | src/main/java/net/jkernelmachines/kernel/extra/bag/SubListKernel2.java:88-90 | when every term of a row exceeds eps, the threshold changes nothing |
| BagKernel.BagSumExact | src/main/java/net/jkernelmachines/kernel/extra/bag/SubListKernel2.java:85-91 | when every term exceeds eps, the thresholded sum is the plain double sum |
| BagKernel.RowSumNothingAbove | src/main/java/net/jkernelmachines/kernel/extra/bag/SubListKernel2.java:88-90 | when no term of a row exceeds eps, the row adds 0 |
| BagKernel.BagSumNothingAbove | src/main/java/net/jkernelmachines/kernel/extra/bag/SubListKernel2.java:85-91 | when no term exceeds eps, the sum is 0 |
| BagKernel.RowSumNearPlain | src/main/java/net/jkernelmachines/kernel/extra/bag/SubListKernel2.java:86-90 | the threshold loses at most eps per term of a row |
| BagKernel.BagSumNearPlain | src/main/java/net/jkernelmachines/kernel/extra/bag/SubListKernel2.java:85-91 | the plain sum exceeds the thresholded sum by at most eps times the number of terms |
| BagKernel.SubListKernel2.constructor | src/main/java/net/jkernelmachines/kernel/extra/bag/SubListKernel2.java:69-75 | stores the base kernel and the four bounds as given, with eps = 1e-5 |
| BagKernel.SubListKernel2.ValueOf | src/main/java/net/jkernelmachines/kernel/extra/bag/SubListKernel2.java:78-94 | clamps the stored upper bounds to the list lengths and returns the thresholded mean over the ranges; this is NaN exactly when the product of the range sizes is 0, and out of bounds for a negative lower bound with both ranges non-empty |
| BagKernel.SubListKernel2.ValueOfSelf | src/main/java/net/jkernelmachines/kernel/extra/bag/SubListKernel2.java:97-99 | the self value is the pair value of the bag with itself, clamping included |
| BagKernel.ClampPersists | src/main/java/net/jkernelmachines/kernel/extra/bag/SubListKernel2.java:80-83 | a call on shorter lists shrinks the bounds for every later call, so a later call on longer lists still stops at the shorter lengths |
| IndexGaussKernel.IndexDoubleGaussL2.constructor | src/main/java/net/jkernelmachines/kernel/typed/index/IndexDoubleGaussL2.java:55-58 | uses the given component, with gamma 0.1 |
| IndexGaussKernel.IndexDoubleGaussL2.DistanceValueOf | src/main/java/net/jkernelmachines/kernel/typed/index/IndexDoubleGaussL2.java:88-91 | the distance is at least 0, and it is 0 exactly when the two components are equal |
| IndexGaussKernel.IndexDoubleGaussL2.ValueOf | src/main/java/net/jkernelmachines/kernel/typed/index/IndexDoubleGaussL2.java:61-65 | gives 1 when both components are zero, and otherwise the Gaussian of the distance with the current gamma |
| IndexGaussKernel.IndexDoubleGaussL2.ValueOfSelf | src/main/java/net/jkernelmachines/kernel/typed/index/IndexDoubleGaussL2.java:68-71 | the self value is 1 |
| IndexGaussKernel.IndexDoubleGaussL2.SetGamma | src/main/java/net/jkernelmachines/kernel/typed/index/IndexDoubleGaussL2.java:73-76 | `getGamma` then returns the new gamma |
| IndexGaussKernel.IndexDoubleGaussL2.SetIndex | src/main/java/net/jkernelmachines/kernel/typed/index/IndexDoubleGaussL2.java:78-81 | the kernel then reads the new component |
| IndexGaussKernel.DistanceSymmetric | src/main/java/net/jkernelmachines/kernel/typed/index/IndexDoubleGaussL2.java:88-91 | the distance is symmetric |
| IndexGaussKernel.ValueSymmetric | src/main/java/net/jkernelmachines/kernel/typed/index/IndexDoubleGaussL2.java:61-65 | the kernel is symmetric, whatever the exponential |
| IndexGaussKernel.OnlyComponentCounts | src/main/java/net/jkernelmachines/kernel/typed/index/IndexDoubleGaussL2.java:61-65 | the value and the distance depend on component `ind` only |
| IndexGaussKernel.ShortcutAgreesWithFormula | src/main/java/net/jkernelmachines/kernel/typed/index/IndexDoubleGaussL2.java:61-71 | with exp(0) = 1, the zero shortcut agrees with the formula, and equal components give the self value |
| IndexGaussKernel.BoundedBySelf | src/main/java/net/jkernelmachines/kernel/typed/index/IndexDoubleGaussL2.java:61-71 | with gamma >= 0 and exp at most 1 on non-positive arguments, no pair scores above the self value |
| IndexGaussKernel.SettersAreIndependent | src/main/java/net/jkernelmachines/kernel/typed/index/IndexDoubleGaussL2.java:73-81 | setting gamma and then the component keeps both new values |
| MultipleKernel.WeightMapKeys | src/main/java/net/jkernelmachines/classifier/MKL.java:68-74 | the keys of the map are exactly the listed kernels |
| MultipleKernel.WeightMapValues | src/main/java/net/jkernelmachines/classifier/MKL.java:68-74 | with distinct kernels, each kernel maps to the weight at its own position |
| MultipleKernel.WeightMapSize | src/main/java/net/jkernelmachines/classifier/MKL.java:68-74 | with distinct kernels, the map has one key per listed kernel |
| MultipleKernel.Mkl.GetKernels | src/main/java/net/jkernelmachines/classifier/MKL.java:60-66 | one kernel per stored pair |
| MultipleKernel.Mkl.GetKernelWeights | src/main/java/net/jkernelmachines/classifier/MKL.java:52-58 | one weight per kernel, in the same order: weight i belongs to kernel i |
| MultipleKernel.Mkl.GetKernelWeightMap | src/main/java/net/jkernelmachines/classifier/MKL.java:68-74 | the keys are exactly the kernels, and with distinct kernels kernel i maps to weight i |
| MultipleKernel.Mkl.AddKernel | src/main/java/net/jkernelmachines/classifier/MKL.java:46-50 | the added kernel is then listed and mapped, the kernels stay distinct, and the set of kernels grows by exactly that kernel |
| MultipleKernel.MapMatchesLists | src/main/java/net/jkernelmachines/classifier/MKL.java:52-74 | the map, the kernel list and the weight array have the same size |
| MultipleKernel.AddKernelGrowsByOne | src/main/java/net/jkernelmachines/classifier/MKL.java:46-50 | adding a new kernel grows the views by one; adding a listed kernel keeps their size |

## Left out

- `java.util.Random` is a parameter: a seeding function and a `nextInt` whose draw is reduced modulo the bound. The model does not compute the linear congruential generator, so it proves no statistical property of the shuffle.
- `Collections.shuffle` is modelled by its loop for random-access lists. It swaps position i - 1 with `nextInt(i)` for i from the size down to 2. The array copy it uses for other lists gives the same order and is not modelled.
- The classifier and the `Evaluator` are one pure score function of the classifier, the training list and the testing list. Their training and side effects, and the setter calls on the evaluator, are not modelled.
- Java `double` is modelled as `real`:
  - IEEE rounding, overflow and infinities are not modelled, and summation order does not matter;
  - a NaN result becomes `None` (harness) or `NotANumber` (bag kernel);
  - `trainPercent * list.size()` and `pos.size() * trainPercent` are the same product here.
- Java `int` overflow is not modelled. This covers `(to1 - fr1) * (to2 - fr2)` in `SubListKernel2` and the `long` seed.
- `Math.sqrt`, `Math.exp` and the base kernel of `SubListKernel2` are function parameters. The lemmas state the properties they need of them, such as exp(0) = 1.
- The threshold of `SubListKernel2` is the source's `10e-6` literal, which is 1e-5 and not 1e-6. The model follows the code.
- `CrossValidation.RandomSplitCrossValidation.Run`:
  - the loop of `run` is split into `RunRepeats` (the countdown) and `RunOnce` (one pass), and the list building is split into `BuildSplit`/`SplitByLabel`;
  - the lists are `seq` values rather than `ArrayList` objects;
  - `results` is an array.
- `CrossValidation.RandomSplitCrossValidation.Run`: exceptions thrown by the evaluator or the classifier are not modelled. The two exceptions `run` raises itself are modelled as `Outcome` values:
  - `NegativeArraySizeException` when nbTest < 0;
  - the `IllegalArgumentException` of `new ArrayList(negative)` when the training size does not fit the list.
- `CrossValidation.RandomSplitCrossValidation.GetScores`, `GetClassifier`, `GetList`, `GetTrainPercent`, `GetNbTest`, `GetSeed` and `IsBalanced` are plain field reads without contracts. Each setter's contract states its getter.
- `TrainingSample.java` is not part of this model. `Samples.TrainingSample` is a value pairing the sample with its label. The model assumes that two samples are equal when both parts are equal, and that `removeAll` uses this equality. If `TrainingSample` does not override `equals`, `removeAll` compares object identities, and the program removes fewer testing samples than the model (only the very objects put in the training list).
- `IndexGaussKernel.IndexDoubleGaussL2.ValueOf` and `IndexGaussKernel.IndexDoubleGaussL2.DistanceValueOf` require the component index to be valid for both vectors. Java would throw `ArrayIndexOutOfBoundsException`, and that exception is not modelled.
- `IndexGaussKernel.IndexDoubleGaussL2.ValueOf`: the zero test of the source also treats -0.0 as zero. Reals have no signed zero.
- `MultipleKernel.Mkl.AddKernel`:
  - it requires and keeps distinct kernels. The interface does not say what adding a kernel that is already present does; the model then leaves the container unchanged.
  - the weight of the new kernel and its position are chosen arbitrarily, because the interface fixes neither.
  - its contract does not promise that the other kernels keep their weights, because an implementation may re-normalise them.
- `MultipleKernel.Mkl`: `MKL` is an interface, so there is no constructor and no learning algorithm.
- `Kernel`, `GaussianKernel`, `DensityFunction`, the test programs, serialization and thread safety are not part of this model.
