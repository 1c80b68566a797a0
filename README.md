# ReverseRegex: the seeded Mersenne Twister and the generator node

This project models two classes of the ReverseRegex PHP library, and proves
properties of the model.

**MersenneRandom** is a seeded MT19937 generator.
- Before a draw, it rebuilds its 624-word state whenever the seed differs
  from the seed it last built from. The rebuild seeds the state with the
  low 32 bits of the seed.
- It then twists the state once. The twist is a two-segment loop (0..226 and
  227..623). Slot 624 is a PHP reference to slot 0.
- Each draw advances a cursor modulo 624, tempers that slot's word, and
  reduces the result into `[min, max]` with PHP's truncating `%`.
- The state is never twisted again, so the draws repeat every 624 calls.

The model proves several things:
- The segment loop computes the reference MT19937 twist: the single loop with
  neighbours taken modulo 624.
- The first draw under seed 5489 is MT19937's first output, 3499211612.
- Draw k depends only on the seed, the bounds and k, and repeats with
  period 624.
- Draws stay in range.
- The accessors behave as written.

**Node** is a labelled vertex. It has three parts:
- a scalar-or-null label;
- an attribute store (PHP's `ArrayObject`), modelled as a `map`;
- its neighbours (PHP's `SplObjectStorage`), modelled as a `seq` of distinct
  nodes in attachment order, with the storage's iterator cursor (`pos`) and
  counter (`index`).

The storage has only one cursor, and every `foreach` inside Node uses it. So
`contains`, `detach` and `map` move the node's own iterator, and the model
keeps that.

Files:
- `wrappers.dfy`: `Option`.
- `mt19937.dfy`: the reference generator. It contains the word sequence, the
  reference twist loop, its equivalence to the sequence, and bounds for the
  64-bit PHP arithmetic.
- `mt19937_vector.dfy`: the first output under seed 5489.
- `mersenne_random.dfy`: class `MersenneRandom` and its clients.
- `node.dfy`: class `Node`, sequence lemmas and clients.

## Model

| member | source | states |
|---|---|---|
| Random.MersenneRandom.constructor | src/ReverseRegex/Random/MersenneRandom.php:41-48 | stores the seed; cursor -1; no state built yet; no bounds stored |
| Random.MersenneRandom.Max | src/ReverseRegex/Random/MersenneRandom.php:50-61 | `max(v)` stores and returns v; `max()` returns the stored bound, or 2147483647 when none is stored |
| Random.MersenneRandom.Min | src/ReverseRegex/Random/MersenneRandom.php:63-74 | as written: `min(v)` stores and returns v; `min()` returns 0 while no upper bound is stored, else the stored lower bound |
| Random.MersenneRandom.MinIntended | src/ReverseRegex/Random/MersenneRandom.php:63-74 | `min()` with the guard on the stored lower bound: returns it, or 0 when none is stored |
| Random.StoredMinAsWritten | src/ReverseRegex/Random/MersenneRandom.php:65-66 | after `min(5)`, `min()` returns 0 |
| Random.StoredMinIntended | src/ReverseRegex/Random/MersenneRandom.php:65-68 | after `min(5)`, the intended `min()` returns 5 |
| Random.MersenneRandom.Seed | src/ReverseRegex/Random/MersenneRandom.php:89-96 | `seed(v)` changes the seed and nothing else: not the cursor, not the built state |
| Random.ReseedKeepsCursor | src/ReverseRegex/Random/MersenneRandom.php:89-96 | after one draw and `seed(v)`, the next draw reads slot 1 of the state built from v |
| Random.MersenneRandom.Seed32 | src/ReverseRegex/Random/MersenneRandom.php:125-131 | the array holds the seeded words x_0 .. x_623 of MT19937 for `seed & 0xFFFFFFFF` |
| Random.MersenneRandom.TwistSlot | src/ReverseRegex/Random/MersenneRandom.php:142-143 | one step of a segment: slot i takes x_{624+i}, read through the alias of slot 624 |
| Random.SegmentFarSource | src/ReverseRegex/Random/MersenneRandom.php:141-143 | offset +397 over slots 0..226 and -227 over 227..623 both read the word x_{i+397} |
| Random.AliasNextSource | src/ReverseRegex/Random/MersenneRandom.php:142 | reading slot i+1, with slot 624 aliased to slot 0, gives x_{i+1} |
| Random.MersenneRandom.TwistSegments | src/ReverseRegex/Random/MersenneRandom.php:140-145 | the segment loops turn any state into the next 624 words of the sequence that continues from it |
| Mt19937.StandardTwistIsNext | src/ReverseRegex/Random/MersenneRandom.php:103 | the reference MT19937 twist loop, with neighbours taken modulo 624, yields those same 624 words |
| Mt19937.TwistFromMixed | src/ReverseRegex/Random/MersenneRandom.php:103 | from any part-twisted state, the rest of the reference loop finishes the same next state |
| Random.MersenneRandom.Rebuild | src/ReverseRegex/Random/MersenneRandom.php:124-146 | records the seed as built, and the array is the seeded state twisted once |
| Random.MersenneRandom.Mt | src/ReverseRegex/Random/MersenneRandom.php:118-156 | rebuilds only when the seed differs from the recorded one, else leaves the array untouched; cursor becomes PHP's `index % 624`; returns the tempered slot reduced by `% (max - min + 1) + min` (slot -1 reads as 0) |
| Random.MersenneRandom.Generate | src/ReverseRegex/Random/MersenneRandom.php:76-87 | an omitted `min` is 0 (the default argument) and only an explicit null `min` falls back to the field; an omitted or null `max` falls back to the field; an unset field counts as 0; cursor becomes `(index + 1) mod 624`; the draw is the absolute value of the tempered word x_{624+index} reduced into the range |
| Random.MersenneRandom.GenerateIntended | src/ReverseRegex/Random/MersenneRandom.php:76-87 | as Generate, but an omitted upper bound falls back to what `max()` reports |
| Random.Mask32 | src/ReverseRegex/Random/MersenneRandom.php:125 | `seed & 0xFFFFFFFF` is the value below 2^32 congruent to the seed modulo 2^32; a seed already in that range is kept |
| Random.Abs | src/ReverseRegex/Random/MersenneRandom.php:86 | `abs` is never negative and is the argument or its negation |
| Random.PhpMod | src/ReverseRegex/Random/MersenneRandom.php:155 | PHP's `%`: the dividend minus a multiple of the divisor, with the dividend's sign and smaller in magnitude than the divisor |
| Random.Reduce | src/ReverseRegex/Random/MersenneRandom.php:155 | division by zero exactly when max = min - 1; otherwise the value lies in `[min, min + abs(max - min + 1))` |
| Random.Scale | src/ReverseRegex/Random/MersenneRandom.php:86 | never negative; for 0 <= min <= max, `abs` changes nothing and the value lies in `[min, max]` |
| Random.SingletonRange | src/ReverseRegex/Random/MersenneRandom.php:86 | a range with min = max >= 0 always yields min, whatever the word |
| Random.Bound | src/ReverseRegex/Random/MersenneRandom.php:78-84 | as written, a bound omitted as null falls back to the stored field; it agrees with the intended fallback whenever an argument or a field is present, and gives 0 instead of 2147483647 when neither is |
| Random.IntendedMaxIsReported | src/ReverseRegex/Random/MersenneRandom.php:50-61 | the intended fallback for an omitted upper bound is exactly what `max()` returns, and asking leaves the stored bound unchanged |
| Random.OmittedMaxAsWritten | src/ReverseRegex/Random/MersenneRandom.php:78-80 | as written, `generate()` on a new generator returns 0 |
| Random.OmittedMaxIntended | src/ReverseRegex/Random/MersenneRandom.php:78-80 | with the intended fallback, `generate()` draws from `[0, 2147483647]` |
| Random.CursorStep | src/ReverseRegex/Random/MersenneRandom.php:149 | the cursor from -1 or (k-1) mod 624, advanced by one and reduced, is k mod 624 |
| Random.DrawMany | src/ReverseRegex/Random/MersenneRandom.php:76-87 | k draws from a new generator return NthDraw(seed, 0..k-1, min, max): they depend only on the seed, the bounds and the count; draw k+624 equals draw k |
| Random.NthDrawPeriod | src/ReverseRegex/Random/MersenneRandom.php:149-155 | draw k+624 equals draw k, because the state is never twisted again |
| Random.FirstDrawOfDefaultSeed | src/ReverseRegex/Random/MersenneRandom.php:103 | a new generator seeded with 5489 returns 3499211612 from `generate(0, 4294967295)` |
| Mt19937Vector.FirstOutput | src/ReverseRegex/Random/MersenneRandom.php:103 | under seed 5489, the first tempered twisted word is 3499211612 |
| Mt19937.PhpInitProduct | src/ReverseRegex/Random/MersenneRandom.php:130 | the product before masking fits a 64-bit PHP integer, so PHP never turns it into a float |
| Mt19937.PhpTwistWord | src/ReverseRegex/Random/MersenneRandom.php:142-143 | on 64-bit integers holding 32-bit words, a twist step yields a 32-bit word |
| Mt19937.PhpTemper | src/ReverseRegex/Random/MersenneRandom.php:150-153 | on a 64-bit integer holding a 32-bit word, tempering yields a 32-bit word |
| Generator.Node.constructor | src/ReverseRegex/Generator/Node.php:43-49 | no attributes, no neighbours; label `'node'` or the given scalar or null, else null |
| Generator.NewNodeIsEmpty | src/ReverseRegex/Generator/Node.php:43-49 | a new node counts 0 neighbours, and no key whatever is an attribute of it |
| Generator.Node.GetLabel | src/ReverseRegex/Generator/Node.php:56-59 | returns the label |
| Generator.Node.SetLabel | src/ReverseRegex/Generator/Node.php:66-73 | a scalar or null becomes the label (returns null); anything else returns false and keeps the label |
| Generator.Node.Attach | src/ReverseRegex/Generator/Node.php:82-87 | appends the node only if it is not linked; the count grows by 1 exactly then; the node is linked afterwards; returns the receiver; the cursor does not move |
| Generator.AttachTwice | src/ReverseRegex/Generator/Node.php:82-87 | attaching the same node twice counts 1, and the node is found |
| Generator.Node.Detach | src/ReverseRegex/Generator/Node.php:96-105 | removes the node if linked and nothing else; the count drops by 1 exactly then; iterator left exhausted, `key()` one past the count when the node was last |
| Generator.WithoutKeeps | src/ReverseRegex/Generator/Node.php:96-105 | detaching x keeps every other neighbour |
| Generator.WithoutDistinct | src/ReverseRegex/Generator/Node.php:96-105 | after detaching, the neighbours are still distinct, one fewer exactly when x was linked |
| Generator.WithoutAppended | src/ReverseRegex/Generator/Node.php:82-105 | detaching a node just attached restores the neighbours |
| Generator.AttachThenDetach | src/ReverseRegex/Generator/Node.php:96-105 | attach a, attach b, detach a: count 1, a not found, b found |
| Generator.Node.Contains | src/ReverseRegex/Generator/Node.php:114-123 | true exactly when the node is linked; as written, it rewinds the node's iterator and leaves it on the match, or exhausted |
| Generator.Node.Has | src/ReverseRegex/Generator/Node.php:114-123 | true exactly when the node is linked, and the node is not changed |
| Generator.ContainsMovesCursor | src/ReverseRegex/Generator/Node.php:116-122 | during a walk over [a, b] positioned on a, `contains(b)` moves `key()` to 1, while `Has` leaves it at 0 |
| Generator.Node.Map | src/ReverseRegex/Generator/Node.php:130-135 | visits every neighbour once, in attachment order, and leaves the iterator exhausted |
| Generator.Node.Count | src/ReverseRegex/Generator/Node.php:140-143 | the number of distinct neighbours |
| Generator.DistinctCardinality | src/ReverseRegex/Generator/Node.php:140-143 | a sequence without repetitions has as many elements as its set |
| Generator.Node.Rewind | src/ReverseRegex/Generator/Node.php:163-166 | cursor on the first neighbour, key 0 |
| Generator.Node.Valid | src/ReverseRegex/Generator/Node.php:168-171 | true exactly while the cursor is on a neighbour |
| Generator.Node.Current | src/ReverseRegex/Generator/Node.php:148-151 | the neighbour under the cursor; None (RuntimeException) past the end |
| Generator.Node.Key | src/ReverseRegex/Generator/Node.php:153-156 | the iteration counter |
| Generator.Node.Next | src/ReverseRegex/Generator/Node.php:158-161 | the cursor advances only while on a neighbour; the counter always advances |
| Generator.Walk | src/ReverseRegex/Generator/Node.php:148-171 | after `rewind`, `valid`/`current`/`key`/`next` visit every neighbour once, in attachment order, with keys 0, 1, ...; `valid()` is false after `count()` steps |
| Generator.WalkTwice | src/ReverseRegex/Generator/Node.php:163-166 | a second `rewind` replays the same visit |
| Generator.Node.OffsetGet | src/ReverseRegex/Generator/Node.php:176-179 | the stored value, or null for a missing key |
| Generator.Node.OffsetSet | src/ReverseRegex/Generator/Node.php:181-184 | stores the value under the key, and nothing else changes |
| Generator.Node.OffsetExists | src/ReverseRegex/Generator/Node.php:186-189 | true exactly when the key is stored |
| Generator.Node.OffsetUnset | src/ReverseRegex/Generator/Node.php:191-194 | removes the key, and nothing else changes |
| Generator.AttributeRoundTrip | src/ReverseRegex/Generator/Node.php:176-194 | `offsetSet(k, v)` then `offsetGet(k)` is v and `offsetExists(k)` is true; after `offsetUnset(k)`, `offsetExists(k)` is false |

## Left out

- `seed(null)` and the constructor's default null seed draw a seed from `mt_rand`. That is entropy, not modelled: seeds are explicit integers.
- `$mt` is a `static` local of `mt`, so PHP shares one state array among all instances. The model gives each instance its own array. Cross-instance interference is not captured: one instance's rebuild changes another's draws.
- The `$index` argument of `mt` is ignored by PHP, and the model omits it.
- The state words are 32-bit words (`bv32`). PHP holds them in 64-bit integers.
- Mt19937.PhpInitProduct, Mt19937.PhpTwistWord, Mt19937.PhpTemper: these state only that the 64-bit computations stay within 32 bits. They do not state that the results equal the 32-bit ones. Proving that equality goes through integer/bit-vector conversions too costly for the solver.
- Non-integer seeds and bounds are not modelled: floats, numeric strings, booleans.
- A range `max - min + 1` beyond PHP_INT_MAX, which PHP turns into a float, is not modelled.
- `abs(PHP_INT_MIN)` is not modelled.
- There is no range check in `generate`. With max = min - 1, PHP raises DivisionByZeroError (`Draw.ModuloByZero`). With max < min - 1, a value is returned whose bound `Reduce` states. The model has no InvalidRange error because the code has none.
- Tempering in `Mt` is the function `Temper`, which holds the same four shift-and-mask steps as the source's chain of `^=` updates.
- PHP compares neighbours with `==`, a recursive comparison of properties. The model compares them by identity. Two distinct nodes with equal contents are therefore different here, whereas `contains` in PHP finds an equal node. `detach` removes the argument object itself, so the neighbours it leaves are the same under either comparison; only the `key()` value its loop leaves behind can differ, because an equal node other than the argument can trigger the removal at a different point of the loop.
- `map`'s closure and its side effects are not modelled. `Map` returns the sequence of visited nodes instead.
- ArrayObject key coercion is not modelled (numeric strings, booleans, floats, null appending). Keys are integers or strings.
- The notice PHP prints when reading a missing attribute is not modelled; the read returns null.
- Changing the neighbours during an outside iteration is not modelled, beyond the cursor moves of `attach` and `detach`. Nor is the hash-table compaction that can make the storage's cursor stale.
- Float labels are modelled as `real`. The label field is named `name`, because `label` is a Dafny keyword.
- GeneratorInterface and the rest of the library are not part of this model: the lexer, the parser and the scopes built on Node.

## Findings

| source | as written | input that shows it | evidently intended | confidence | as-written member | corrected member |
|---|---|---|---|---|---|---|
| src/ReverseRegex/Random/MersenneRandom.php:65 | `min()` tests `$this->max` for null, so it returns 0 whenever no upper bound is stored | `min(5)` then `min()` returns 0 | `min()` returns the stored lower bound, as `max()` does for the upper one | medium, not executed | Random.StoredMinAsWritten | Random.StoredMinIntended |
| src/ReverseRegex/Random/MersenneRandom.php:78-80 | an omitted `max` falls back to the field, which is null until `max(v)` is called; null counts as 0, so the modulus is `0 - 0 + 1 = 1` | `generate()` on a new generator returns 0, whatever the seed | fall back to what `max()` reports, 2147483647 | medium, not executed | Random.OmittedMaxAsWritten | Random.OmittedMaxIntended |
| src/ReverseRegex/Generator/Node.php:116-122 | `contains` runs `foreach` over the SplObjectStorage, which uses the same cursor as the node's own iterator | positioned on a in a walk over [a, b], `contains(b)` moves `key()` to 1 and `current()` to b | a search that leaves the node's iterator where it was | medium, not executed | Generator.ContainsMovesCursor | Generator.Node.Has |
