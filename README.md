# fairseq checkpoint and embedding utilities, modelled in Dafny

This project models the core of `fairseq/utils.py`, a module of the fairseq
sequence-to-sequence toolkit, and proves properties of the model:

- **Checkpoint bookkeeping** (`checkpoint.dfy`, module `Checkpoint`). A
  snapshot is a dictionary from field names to values, and tensors, optimizer
  state and loss scalars are opaque blobs. The model covers:
  - `_upgrade_state_dict`, which migrates the two older layouts to the current
    one in place, as the spec function `Upgraded` and the method
    `StateDict.Upgrade`;
  - `save_state`, with the three-attempt retry loop of `torch_persistent_save`;
  - `load_state`, with its criterion-name guard over the optimizer and the
    scheduler's `best`.

  The file system is a `Storage` object that maps file names to the snapshots
  written there. `Model`, `Optimizer` and `LrScheduler` are small classes whose
  fields `load_state` overwrites.
- **Criterion selection** (`criteria.dfy`, module `Criteria`). This covers
  `build_criterion` and `build_token_criterion` over a closed `Criterion`
  datatype, and the class names that checkpoints record.
- **Word-embedding ingestion** (`embedding.dfy`, module `Embedding`). It
  covers:
  - `parse_embedding` as a loop that fills a map;
  - `print_embed_overlap` as a set-intersection count;
  - `load_embedding` as an in-place loop over the rows of an array.
- **Padding helpers** (`padding.dfy`, module `Padding`): `lstrip_pad` and
  `rstrip_pad` over `seq<int>`.
- `results.dfy` (module `Results`) holds the `Option` and `Result` types.

Python exceptions that the code lets escape on malformed input are modelled as
error results, not excluded by preconditions. These are the `KeyError` on a
missing field, the `IndexError` on an empty history or a matrix too short for
the vocabulary, and the `ValueError` on a row without a space. Where the source
has already mutated state before raising, the model keeps that partial effect:
- An upgrade whose second step raises keeps the history its first step added.
- `load_state` has already loaded the weights and possibly the optimizer when
  `state['extra_state']` raises.
- `load_embedding` has written every earlier row when it raises.

Behaviour of the code worth noting:
- `parse_embedding` splits each line at its first single space character
  (`line.split(' ', 1)`), not at the first run of whitespace. A line with no
  space raises.
- The reference dimension for the mismatch report is the length of the vector
  on the last line read.
- A row whose dimension differs is only reported: it stays in the table, and
  the file is not rejected.
- `load_state` on a missing file returns `(None, [])`, not an error. In the
  model this is `Ok(Loaded(None, []))`.
- A snapshot that has neither a top-level `epoch` nor `extra_state` (a
  version-2 snapshot saved without counters) cannot be loaded.
  `state['extra_state']` raises at the end of `load_state`.

## Model

| member | source | states |
|---|---|---|
| `Padding.CountPad` | fairseq/utils.py:181 | the pad count `t.eq(pad).sum()` is at most `|t|`, is zero iff `pad` does not occur, and equals `|t|` iff every element is `pad` |
| `Padding.LStripPad` | fairseq/utils.py:180-181 | the result has length `|t|` minus the pad count, is a suffix of `t`, and is `t` itself when no pad occurs |
| `Padding.RStripPad` | fairseq/utils.py:184-188 | the result has length `|t|` minus the pad count, is a prefix of `t`, and is `t` itself when no pad occurs |
| `Padding.CountPadAppend` | fairseq/utils.py:181 | the pad count of a concatenation is the sum of the two counts |
| `Padding.LStripLeftPadded` | fairseq/utils.py:180-181 | on `k` leading pads followed by pad-free `u`, `lstrip_pad` gives back exactly `u`, which holds no pad |
| `Padding.RStripRightPadded` | fairseq/utils.py:184-188 | on pad-free `u` followed by `k` trailing pads, `rstrip_pad` gives back exactly `u`, which holds no pad |
| `Padding.LStripInteriorPad` | fairseq/utils.py:180-181 | with a pad in the middle (`[5, 1, 7]`, pad 1), `lstrip_pad` drops the real token 5 and keeps the pad |
| `Criteria.ClassName` | fairseq/utils.py:80 | a criterion is recorded as `CrossEntropyCriterion` (resp. `LabelSmoothedCrossEntropyCriterion`) iff it is that built-in criterion or a registered sequence criterion of that name |
| `Criteria.BuildTokenCriterion` | fairseq/utils.py:53-58 | a token-level criterion with the given padding index; label-smoothed (carrying the smoothing) iff smoothing > 0, otherwise plain cross-entropy |
| `Criteria.BuildCriterion` | fairseq/utils.py:34-50 | an unregistered name gives the token criterion; a registered one gives that sequence criterion, wrapped in the combined criterion with the token criterion and alpha iff alpha > 0 |
| `Criteria.BuildsCrossEntropyName` | fairseq/utils.py:34-58 | the built criterion's class name is `CrossEntropyCriterion` iff training is token-level with no label smoothing, given that no sequence criterion is registered under that name |
| `Checkpoint.Upgraded` | fairseq/utils.py:115-138 | after an upgrade that does not raise, `optimizer_history` is present; a raised KeyError names a layout field that the input lacked |
| `Checkpoint.StateDict.Upgrade` | fairseq/utils.py:115-138 | mutating the dictionary in place gives exactly the contents and the KeyError of `Upgraded` on the old contents |
| `Checkpoint.UpgradeIdempotent` | fairseq/utils.py:115-138 | upgrading the result of an upgrade gives the same state and the same outcome, including a retry after a KeyError |
| `Checkpoint.UpgradeKeepsOtherFields` | fairseq/utils.py:118-137 | every field other than the seven layout fields is present after the upgrade iff it was before, with the same value |
| `Checkpoint.UpgradeCurrentUnchanged` | fairseq/utils.py:118-129 | a snapshot that has `optimizer_history`, and has no `epoch` or already has `extra_state`, is left exactly as it is |
| `Checkpoint.UpgradeFailsIff` | fairseq/utils.py:118-134 | the upgrade raises iff a legacy field that it dereferences (`optimizer`, `best_loss`, `batch_offset`, `val_loss`) is missing when its step fires |
| `Checkpoint.UpgradeLegacy` | fairseq/utils.py:118-138 | the legacy layout {args, model, optimizer, best_loss, epoch, batch_offset, val_loss} becomes exactly {args, model, a one-entry history under `CrossEntropyCriterion` with the old optimizer and best_loss, extra_state of the three counters} |
| `Checkpoint.PersistentSave` | fairseq/utils.py:61-67 | 1 to 3 attempts, stopping at the first that succeeds; every earlier attempt failed; the failure is logged iff all three attempts fail, and nothing is raised; the file is written iff some attempt succeeds |
| `Checkpoint.SavedSnapshot` | fairseq/utils.py:71-86 | the built snapshot has exactly the fields args, model, optimizer_history and extra_state; its history is the prior one (empty by default), kept in order, with the new entry appended as its only extra element; extra_state is the given record, empty by default |
| `Checkpoint.SaveState` | fairseq/utils.py:70-87 | the file gets the built snapshot iff the write succeeds, and no other file changes |
| `Checkpoint.SaveThenLoad` | fairseq/utils.py:70-112 | after a successful save, the file holds the built snapshot and no other file changes; a load into another run returns the prior history plus an entry holding the saving criterion's class name, optimizer state and `best` at save time; it loads the saved weights, restores that optimizer state and `best` iff the loading criterion has the same class name, and otherwise keeps the loading run's own values |
| `Checkpoint.SavedSnapshotIsCurrent` | fairseq/utils.py:75-86 | a snapshot that `save_state` builds is already in the current layout: the upgrade leaves it unchanged |
| `Checkpoint.SaveLoadRoundTrip` | fairseq/utils.py:70-112 | loading a saved snapshot returns the prior history (empty by default) plus the new entry last, and the extra state (empty by default); it loads the saved weights and restores the optimizer and `best` iff the criterion class name matches |
| `Checkpoint.HistoryAppendOnly` | fairseq/utils.py:78-84 | after N saves, each given the history handed back for the previous one, the history is exactly the N entries in call order |
| `Checkpoint.LoadState` | fairseq/utils.py:90-112 | the returned result, the model's weights, the optimizer state and the scheduler's `best` are those of `LoadOutcome`; on no file, or a KeyError from the upgrade or from `state['model']`, nothing changes; when the class names differ, the optimizer state and `best` keep their old values; on the final `extra_state` KeyError the weights are already loaded and the restore has already happened |
| `Checkpoint.LoadMissingFile` | fairseq/utils.py:91-92 | a missing file returns `(None, [])` and loads nothing into the model, the optimizer or the scheduler |
| `Checkpoint.LoadRestoresIffSameCriterion` | fairseq/utils.py:106-112 | a successful load returns the full non-empty history, and restores from its last entry iff that entry's criterion name is the current one |
| `Checkpoint.LoadWithoutExtraStateFails` | fairseq/utils.py:112 | a snapshot with neither `epoch` nor `extra_state` always fails to load |
| `Checkpoint.LegacyRestoresOnlyCrossEntropy` | fairseq/utils.py:106-125 | a legacy snapshot loads, and restores the optimizer iff the current criterion's class is `CrossEntropyCriterion` |
| `Embedding.FirstSpace` | fairseq/utils.py:223 | the first space position: no space before it, and it is `|s|` exactly when the line has no space |
| `Embedding.SplitAtFirstSpace` | fairseq/utils.py:223 | the line is token + one space + payload, and the token holds no space |
| `Embedding.Collect` | fairseq/utils.py:220-224 | reading the rows succeeds iff every row has a space; an error names the first row without one; on success, every row's token is a key of the table |
| `Embedding.ParseEmbedding` | fairseq/utils.py:197-229 | the loop's result is `ParseOutcome`: no rows after the header gives the KeyError, the first row without a space gives the ValueError, and otherwise the table, the last row's dimension and the mismatching tokens |
| `Embedding.CollectKeys` | fairseq/utils.py:220-224 | a token is in the table iff some row defines it |
| `Embedding.CollectLastWins` | fairseq/utils.py:220-224 | a token's vector is the parsed payload of the last row that defines it; later duplicates overwrite earlier ones |
| `Embedding.ParsedTable` | fairseq/utils.py:220-229 | after a successful parse: keys are exactly the tokens of lines 1 onwards, with their last line's vector; the dimension is that of the last line; mismatching rows are reported and kept |
| `Embedding.ParsedDimension` | fairseq/utils.py:225 | after a successful parse, the reference dimension is the length of the vector parsed from the last line |
| `Embedding.HeaderIgnored` | fairseq/utils.py:220-222 | replacing line 0 by anything gives the same outcome |
| `Embedding.HeaderOnlyFails` | fairseq/utils.py:225 | a file with nothing after the header fails with the KeyError |
| `Embedding.NoSpaceFails` | fairseq/utils.py:223 | any row after the header without a space makes the parse fail with a ValueError at or before that row |
| `Embedding.EmbedOverlap` | fairseq/utils.py:191-195 | the reported total is the vocabulary size, the found count is at most the table size, and it is zero iff no vocabulary symbol is in the table |
| `Embedding.FoundCount` | fairseq/utils.py:191-195 | the number of distinct vocabulary types found in the table is at most the vocabulary size |
| `Embedding.OverlapCountsFoundTypes` | fairseq/utils.py:191-195 | the reported overlap `|keys ∩ set(symbols)|` equals the count of distinct vocabulary types present in the table |
| `Embedding.OverlapBounded` | fairseq/utils.py:192-195 | the overlap is at most the table size and at most the vocabulary size `len(vocab_dict)` |
| `Embedding.LoadEmbedding` | fairseq/utils.py:231-236 | the array, written in place, becomes `Spliced` of its old rows; an IndexError is reported iff a found token's index is past the last row, and names the first such index |
| `Embedding.SplicedAt` | fairseq/utils.py:232-235 | the row count is unchanged; row `i` becomes the table's vector for `vocab[i]` iff that token is in the table, and otherwise keeps its value |
| `Embedding.SplicedTail` | fairseq/utils.py:232-235 | vocabulary entries past the last row change nothing, so stopping at the IndexError leaves the same rows |
| `Embedding.SplicedIdempotent` | fairseq/utils.py:231-236 | splicing the same table a second time changes nothing |
| `Embedding.SpliceExample` | fairseq/utils.py:231-236 | vocabulary [the, cat, at] with vectors for "the" and "at" rewrites rows 0 and 2 and keeps row 1 |

## Left out

- `parse_args_and_arch` and `build_model` (fairseq/utils.py:22-31) are left
  out. They are argument parsing and dynamic registry lookups on the models
  package.
- `load_ensemble_for_inference` (fairseq/utils.py:141-158) is left out. It
  consists of file-existence checks, `torch.load` with CPU remapping, and model
  construction.
- `prepare_sample` (fairseq/utils.py:161-177) is left out. It wraps tensors in
  autograd variables and moves them to the GPU.
- `torch.save` and `torch.load` are modelled as storing and reading the
  snapshot value unchanged. The per-attempt write outcome is the parameter
  `succeeds`. A write that fails part-way is not modelled.
- The `cuda_device` argument of `load_state` is left out. It only picks the
  device that tensors are restored to.
- Deserialised `optimizer_history` entries are typed records. A history entry
  that lacks one of its three keys is not modelled. A history field that is not
  a list is reported as `Malformed`.
- The shape checks in `model.load_state_dict` and
  `optimizer.load_state_dict` are not modelled. They are the collaborators' own
  checks. The model only assigns the stored value.
- Embedding.LoadEmbedding: torch's row-assignment shape check (and
  broadcasting of short vectors) is not modelled; any vector is stored in the
  row as it is.
- Float parsing (`np.fromstring`) is the parameter `parse`. Vector contents
  are otherwise opaque `seq<real>`.
- Reading the file is left out. The file is given as its lines in iteration
  order.
- The exact text of the `print` and `logging` output is left out. The model
  keeps the overlap count and vocabulary size of `print_embed_overlap`, and
  whether `torch_persistent_save` logs. For `parse_embedding` it keeps the
  tokens whose vector length differs from the reference dimension. The source
  prints each such vector's length together with that dimension, and these
  pairs follow from the kept tokens.
- A registered sequence criterion's class is assumed to carry its registry
  name. Its constructor arguments (`args`, the target dictionary) are opaque.
- The padding helpers are modelled on one-dimensional sequences only.
