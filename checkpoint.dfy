/** Checkpoint bookkeeping of fairseq/utils.py: the snapshot layout, its
    upgrade from the two older layouts, `save_state` with the retrying
    `torch_persistent_save`, and the restore guard of `load_state`.

    A snapshot is a dictionary from field names to values. Tensors, the
    argument namespace, optimizer state and loss scalars are opaque `Blob`s;
    serialization is the identity, and the file system is a `Storage` object
    mapping file names to the snapshots written there. */
module Checkpoint {
  import opened Results
  import opened Criteria

  /** A value stored in a snapshot. */
  datatype Value =
    | Blob(id: int)
    | History(entries: seq<OptimEntry>)
    | Record(fields: map<string, Value>)

  /** One `optimizer_history` entry: written once by a save, never changed. */
  datatype OptimEntry = OptimEntry(criterionName: string, optimizer: Value, bestLoss: Value)

  type Snapshot = map<string, Value>

  /** The exceptions a load can raise on a malformed snapshot. */
  datatype Error =
    | KeyError(key: string)
      /** `optim_history[-1]` on an empty history. */
    | IndexError
      /** `optimizer_history` holds something other than a list of entries. */
    | Malformed(key: string)

  /** The fields that the upgrade reads, writes or deletes. */
  const LayoutKeys: set<string> :=
    {"optimizer_history", "optimizer", "best_loss", "extra_state", "epoch", "batch_offset", "val_loss"}

  /** The dictionary after an upgrade, and the key whose absence raised a
      `KeyError` part-way, if one did. */
  datatype UpgradeOutcome = UpgradeOutcome(state: Snapshot, missing: Option<string>)

  /** First step: a snapshot without `optimizer_history` gets a one-entry
      history built from its top-level `optimizer` and `best_loss`, recorded
      under the plain cross-entropy criterion, and those two fields go. */
  function AddOptimizerHistory(m: Snapshot): UpgradeOutcome
  {
    if "optimizer_history" in m then UpgradeOutcome(m, None)
    else if "optimizer" !in m then UpgradeOutcome(m, Some("optimizer"))
    else if "best_loss" !in m then UpgradeOutcome(m, Some("best_loss"))
    else
      var entry := OptimEntry(CrossEntropyName, m["optimizer"], m["best_loss"]);
      UpgradeOutcome(m["optimizer_history" := History([entry])] - {"optimizer", "best_loss"}, None)
  }

  /** Second step: a snapshot with a top-level `epoch` and no `extra_state`
      gets `extra_state` = {epoch, batch_offset, val_loss}, and the three
      top-level fields go. */
  function MoveExtraState(m: Snapshot): UpgradeOutcome
  {
    if "epoch" in m && "extra_state" !in m then
      if "batch_offset" !in m then UpgradeOutcome(m, Some("batch_offset"))
      else if "val_loss" !in m then UpgradeOutcome(m, Some("val_loss"))
      else
        var extra := map["epoch" := m["epoch"], "batch_offset" := m["batch_offset"], "val_loss" := m["val_loss"]];
        UpgradeOutcome(m["extra_state" := Record(extra)] - {"epoch", "batch_offset", "val_loss"}, None)
    else UpgradeOutcome(m, None)
  }

  /** `_upgrade_state_dict`: both steps in order; a `KeyError` in the second
      leaves the first step's changes in place. */
  function Upgraded(m: Snapshot): (u: UpgradeOutcome)
    ensures u.missing.None? ==> "optimizer_history" in u.state
    ensures u.missing.Some? ==> u.missing.value in LayoutKeys && u.missing.value !in m
  {
    var first := AddOptimizerHistory(m);
    if first.missing.Some? then first else MoveExtraState(first.state)
  }

  /** A dictionary the source mutates in place. */
  class StateDict {
    var entries: Snapshot

    constructor (entries: Snapshot)
      ensures this.entries == entries
    {
      this.entries := entries;
    }

    /** `_upgrade_state_dict(state)`: inserts and deletes keys of this very
        dictionary (the source returns the same object). */
    method Upgrade() returns (missing: Option<string>)
      modifies this
      ensures UpgradeOutcome(entries, missing) == Upgraded(old(entries))
    {
      if "optimizer_history" !in entries {
        if "optimizer" !in entries { return Some("optimizer"); }
        if "best_loss" !in entries { return Some("best_loss"); }
        var entry := OptimEntry(CrossEntropyName, entries["optimizer"], entries["best_loss"]);
        entries := entries["optimizer_history" := History([entry])];
        entries := entries - {"optimizer"};
        entries := entries - {"best_loss"};
      }
      assert entries == AddOptimizerHistory(old(entries)).state;
      if "epoch" in entries && "extra_state" !in entries {
        if "batch_offset" !in entries { return Some("batch_offset"); }
        if "val_loss" !in entries { return Some("val_loss"); }
        var extra := map["epoch" := entries["epoch"], "batch_offset" := entries["batch_offset"], "val_loss" := entries["val_loss"]];
        entries := entries["extra_state" := Record(extra)];
        entries := entries - {"epoch"};
        entries := entries - {"batch_offset"};
        entries := entries - {"val_loss"};
      }
      return None;
    }
  }

  /** Upgrading twice is upgrading once, including when the first pass
      raised: a retry stops at the same missing key with the same state. */
  lemma UpgradeIdempotent(m: Snapshot)
    ensures Upgraded(Upgraded(m).state) == Upgraded(m)
  {
    var first := AddOptimizerHistory(m);
    if first.missing.None? {
      var u := MoveExtraState(first.state);
      assert AddOptimizerHistory(u.state) == UpgradeOutcome(u.state, None);
      if u.missing.None? {
        assert MoveExtraState(u.state) == u;
      }
    }
  }

  /** Fields outside the layout fields are never added, removed or changed. */
  lemma UpgradeKeepsOtherFields(m: Snapshot, k: string)
    requires k !in LayoutKeys
    ensures k in Upgraded(m).state <==> k in m
    ensures k in m ==> Upgraded(m).state[k] == m[k]
  {
  }

  /** A snapshot in the current layout is left exactly as it is. */
  lemma UpgradeCurrentUnchanged(m: Snapshot)
    requires "optimizer_history" in m
    requires "epoch" !in m || "extra_state" in m
    ensures Upgraded(m) == UpgradeOutcome(m, None)
  {
  }

  /** The upgrade raises exactly when a legacy field it reads is absent. */
  lemma UpgradeFailsIff(m: Snapshot)
    ensures Upgraded(m).missing.Some? <==>
      || ("optimizer_history" !in m && ("optimizer" !in m || "best_loss" !in m))
      || ("epoch" in m && "extra_state" !in m && ("batch_offset" !in m || "val_loss" !in m))
  {
  }

  /** The oldest layout {args, model, optimizer, best_loss, epoch,
      batch_offset, val_loss} becomes {args, model, optimizer_history,
      extra_state}: one history entry under the plain cross-entropy name
      holding the old optimizer and best loss, and the three counters moved
      into `extra_state`. */
  lemma UpgradeLegacy(args: Value, model: Value, optimizer: Value, bestLoss: Value, epoch: Value, batchOffset: Value, valLoss: Value)
    ensures var legacy := map["args" := args, "model" := model, "optimizer" := optimizer, "best_loss" := bestLoss,
                              "epoch" := epoch, "batch_offset" := batchOffset, "val_loss" := valLoss];
            Upgraded(legacy) == UpgradeOutcome(
              map["args" := args, "model" := model,
                  "optimizer_history" := History([OptimEntry(CrossEntropyName, optimizer, bestLoss)]),
                  "extra_state" := Record(map["epoch" := epoch, "batch_offset" := batchOffset, "val_loss" := valLoss])],
              None)
  {
    var legacy := map["args" := args, "model" := model, "optimizer" := optimizer, "best_loss" := bestLoss,
                      "epoch" := epoch, "batch_offset" := batchOffset, "val_loss" := valLoss];
    var first := AddOptimizerHistory(legacy).state;
    assert first == map["args" := args, "model" := model,
                        "optimizer_history" := History([OptimEntry(CrossEntropyName, optimizer, bestLoss)]),
                        "epoch" := epoch, "batch_offset" := batchOffset, "val_loss" := valLoss];
  }

  // ----- saving ---------------------------------------------------------

  /** The file system: the snapshot last written under each file name. */
  class Storage {
    var files: map<string, Snapshot>

    constructor (files: map<string, Snapshot>)
      ensures this.files == files
    {
      this.files := files;
    }
  }

  class Model {
    var weights: Value
    constructor (weights: Value) ensures this.weights == weights { this.weights := weights; }
  }

  class Optimizer {
    var state: Value
    constructor (state: Value) ensures this.state == state { this.state := state; }
  }

  class LrScheduler {
    var best: Value
    constructor (best: Value) ensures this.best == best { this.best := best; }
  }

  const MaxAttempts: nat := 3

  /** `succeeds(i)` tells whether the `i`-th write attempt completes. */
  predicate WriteSucceeds(succeeds: nat -> bool)
  {
    exists i :: 0 <= i < MaxAttempts && succeeds(i)
  }

  /** `torch_persistent_save`: up to three attempts, stopping at the first
      that completes; a failure never escapes, and only a failing third
      attempt is logged. */
  method PersistentSave(store: Storage, filename: string, snapshot: Snapshot, succeeds: nat -> bool)
    returns (attempts: nat, logged: bool)
    modifies store
    ensures 1 <= attempts <= MaxAttempts
    ensures forall i :: 0 <= i < attempts - 1 ==> !succeeds(i)
    ensures logged <==> !WriteSucceeds(succeeds)
    ensures logged ==> attempts == MaxAttempts
    ensures !logged ==> succeeds(attempts - 1)
    ensures store.files == if logged then old(store.files) else old(store.files)[filename := snapshot]
  {
    attempts, logged := 0, false;
    var i := 0;
    while i < MaxAttempts
      invariant 0 <= i <= MaxAttempts && attempts == i
      invariant forall j :: 0 <= j < i ==> !succeeds(j)
      invariant logged <==> i == MaxAttempts
      invariant store.files == old(store.files)
    {
      attempts := i + 1;
      if succeeds(i) {
        store.files := store.files[filename := snapshot];
        return;
      }
      if i == MaxAttempts - 1 {
        logged := true;
      }
      i := i + 1;
    }
  }

  /** The snapshot `save_state` builds: the prior history (empty by default)
      plus one new entry, and `extra_state` (empty by default). The caller's
      history is a value and is not changed. */
  function SavedSnapshot(args: Value, weights: Value, entry: OptimEntry,
                         optimHistory: Option<seq<OptimEntry>>, extraState: Option<map<string, Value>>): (s: Snapshot)
    ensures s.Keys == {"args", "model", "optimizer_history", "extra_state"}
    ensures s["args"] == args && s["model"] == weights
    ensures var prior := if optimHistory.Some? then optimHistory.value else [];
            && s["optimizer_history"].History?
            && |s["optimizer_history"].entries| == |prior| + 1
            && s["optimizer_history"].entries[..|prior|] == prior
            && s["optimizer_history"].entries[|prior|] == entry
    ensures s["extra_state"] == Record(if extraState.Some? then extraState.value else map[])
  {
    var prior := if optimHistory.Some? then optimHistory.value else [];
    var extra := if extraState.Some? then extraState.value else map[];
    map["args" := args, "model" := weights,
        "optimizer_history" := History(prior + [entry]),
        "extra_state" := Record(extra)]
  }

  /** The entry a save appends: the criterion's class name, the optimizer's
      state and the scheduler's best loss. */
  function EntryFor(criterion: Criterion, optimizer: Optimizer, scheduler: LrScheduler): OptimEntry
    reads optimizer, scheduler
  {
    OptimEntry(ClassName(criterion), optimizer.state, scheduler.best)
  }

  /** `save_state`: builds the snapshot and writes it with retries. */
  method SaveState(store: Storage, filename: string, args: Value, model: Model, criterion: Criterion,
                   optimizer: Optimizer, scheduler: LrScheduler,
                   optimHistory: Option<seq<OptimEntry>>, extraState: Option<map<string, Value>>,
                   succeeds: nat -> bool)
    modifies store
    ensures store.files ==
      if WriteSucceeds(succeeds)
      then old(store.files)[filename := SavedSnapshot(args, model.weights, EntryFor(criterion, optimizer, scheduler), optimHistory, extraState)]
      else old(store.files)
  {
    var snapshot := SavedSnapshot(args, model.weights, EntryFor(criterion, optimizer, scheduler), optimHistory, extraState);
    var _, _ := PersistentSave(store, filename, snapshot, succeeds);
  }

  /** Saving from one training run and loading into another: once the write
      succeeds, the load hands back the history with the new entry last and
      the weights at save time; the optimizer state and best loss at save time
      are restored iff the loading criterion has the saving criterion's class,
      and otherwise the loading run keeps its own. */
  method SaveThenLoad(store: Storage, filename: string, args: Value,
                      model: Model, criterion: Criterion, optimizer: Optimizer, scheduler: LrScheduler,
                      optimHistory: Option<seq<OptimEntry>>, extraState: Option<map<string, Value>>,
                      succeeds: nat -> bool,
                      model': Model, criterion': Criterion, optimizer': Optimizer, scheduler': LrScheduler)
    returns (r: Result<Loaded, Error>)
    requires WriteSucceeds(succeeds)
    modifies store, model', optimizer', scheduler'
    ensures var prior := if optimHistory.Some? then optimHistory.value else [];
            r == Ok(Loaded(Some(Record(if extraState.Some? then extraState.value else map[])),
                           prior + [OptimEntry(ClassName(criterion), old(optimizer.state), old(scheduler.best))]))
    ensures store.files == old(store.files)[filename := SavedSnapshot(args, old(model.weights),
              OptimEntry(ClassName(criterion), old(optimizer.state), old(scheduler.best)), optimHistory, extraState)]
    ensures model'.weights == old(model.weights)
    ensures ClassName(criterion') == ClassName(criterion) ==>
              optimizer'.state == old(optimizer.state) && scheduler'.best == old(scheduler.best)
    ensures ClassName(criterion') != ClassName(criterion) ==>
              optimizer'.state == old(optimizer'.state) && scheduler'.best == old(scheduler'.best)
  {
    var entry := EntryFor(criterion, optimizer, scheduler);
    var weights := model.weights;
    SaveState(store, filename, args, model, criterion, optimizer, scheduler, optimHistory, extraState, succeeds);
    SaveLoadRoundTrip(args, weights, entry, optimHistory, extraState, ClassName(criterion'));
    r := LoadState(store, filename, model', criterion', optimizer', scheduler');
  }

  /** A saved snapshot is already in the current layout. */
  lemma SavedSnapshotIsCurrent(args: Value, weights: Value, entry: OptimEntry,
                               optimHistory: Option<seq<OptimEntry>>, extraState: Option<map<string, Value>>)
    ensures var s := SavedSnapshot(args, weights, entry, optimHistory, extraState);
            Upgraded(s) == UpgradeOutcome(s, None)
  {
  }

  // ----- loading --------------------------------------------------------

  /** What `load_state` hands back: `extra_state` (None when there was no
      file) and the full optimizer history. */
  datatype Loaded = Loaded(extraState: Option<Value>, history: seq<OptimEntry>)

  /** The result of a load together with what it wrote into the model
      (`weights`) and into the optimizer and scheduler (`restored`). */
  datatype LoadEffect = LoadEffect(result: Result<Loaded, Error>, weights: Option<Value>, restored: Option<OptimEntry>)

  function Stored(files: map<string, Snapshot>, filename: string): Option<Snapshot>
  {
    if filename in files then Some(files[filename]) else None
  }

  /** `load_state` on the snapshot found at the path (None: no file) with a
      criterion of class `criterionName`. */
  function LoadOutcome(stored: Option<Snapshot>, criterionName: string): LoadEffect
  {
    if stored.None? then LoadEffect(Ok(Loaded(None, [])), None, None)
    else
      var u := Upgraded(stored.value);
      if u.missing.Some? then LoadEffect(Err(KeyError(u.missing.value)), None, None)
      else if "model" !in u.state then LoadEffect(Err(KeyError("model")), None, None)
      else
        var weights := Some(u.state["model"]);
        match u.state["optimizer_history"]
        case History(h) =>
          if h == [] then LoadEffect(Err(IndexError), weights, None)
          else
            var last := h[|h| - 1];
            var restored := if last.criterionName == criterionName then Some(last) else None;
            if "extra_state" !in u.state then LoadEffect(Err(KeyError("extra_state")), weights, restored)
            else LoadEffect(Ok(Loaded(Some(u.state["extra_state"]), h)), weights, restored)
        case _ => LoadEffect(Err(Malformed("optimizer_history")), weights, None)
  }

  /** `load_state`: upgrade, load the weights, then restore the optimizer
      state and the scheduler's best loss only when the last history entry
      was written under the current criterion's class. */
  method LoadState(store: Storage, filename: string, model: Model, criterion: Criterion,
                   optimizer: Optimizer, scheduler: LrScheduler)
    returns (r: Result<Loaded, Error>)
    modifies model, optimizer, scheduler
    ensures var e := LoadOutcome(Stored(store.files, filename), ClassName(criterion));
      && r == e.result
      && model.weights == (if e.weights.Some? then e.weights.value else old(model.weights))
      && optimizer.state == (if e.restored.Some? then e.restored.value.optimizer else old(optimizer.state))
      && scheduler.best == (if e.restored.Some? then e.restored.value.bestLoss else old(scheduler.best))
  {
    if filename !in store.files {
      return Ok(Loaded(None, []));
    }
    var state := new StateDict(store.files[filename]);
    var missing := state.Upgrade();
    if missing.Some? {
      return Err(KeyError(missing.value));
    }
    if "model" !in state.entries {
      return Err(KeyError("model"));
    }
    model.weights := state.entries["model"];
    var optimHistory := state.entries["optimizer_history"];
    if !optimHistory.History? {
      return Err(Malformed("optimizer_history"));
    }
    var h := optimHistory.entries;
    if |h| == 0 {
      return Err(IndexError);
    }
    var lastOptim := h[|h| - 1];
    if lastOptim.criterionName == ClassName(criterion) {
      optimizer.state := lastOptim.optimizer;
      scheduler.best := lastOptim.bestLoss;
    }
    if "extra_state" !in state.entries {
      return Err(KeyError("extra_state"));
    }
    return Ok(Loaded(Some(state.entries["extra_state"]), h));
  }

  /** No file: nothing is touched and `(None, [])` comes back. */
  lemma LoadMissingFile(criterionName: string)
    ensures LoadOutcome(None, criterionName) == LoadEffect(Ok(Loaded(None, [])), None, None)
  {
  }

  /** A load that succeeds returns the full history, and restores the
      optimizer and scheduler from its last entry exactly when that entry's
      criterion name is the current one. */
  lemma LoadRestoresIffSameCriterion(s: Snapshot, criterionName: string)
    requires LoadOutcome(Some(s), criterionName).result.Ok?
    ensures var e := LoadOutcome(Some(s), criterionName);
            var h := e.result.value.history;
            && h != []
            && Upgraded(s).state["optimizer_history"] == History(h)
            && (e.restored.Some? <==> h[|h| - 1].criterionName == criterionName)
            && (e.restored.Some? ==> e.restored.value == h[|h| - 1])
  {
  }

  /** A snapshot with neither a top-level `epoch` nor `extra_state` can
      never be loaded: the final `state['extra_state']` raises if nothing
      earlier does. */
  lemma LoadWithoutExtraStateFails(s: Snapshot, criterionName: string)
    requires "epoch" !in s && "extra_state" !in s
    ensures LoadOutcome(Some(s), criterionName).result.Err?
  {
    var first := AddOptimizerHistory(s);
    assert "extra_state" !in first.state;
  }

  /** Loading what a save wrote gives back the history with the new entry
      last, the extra state and the weights; the optimizer and scheduler are
      restored exactly when the criterion class is the same. */
  lemma SaveLoadRoundTrip(args: Value, weights: Value, entry: OptimEntry,
                          optimHistory: Option<seq<OptimEntry>>, extraState: Option<map<string, Value>>,
                          criterionName: string)
    ensures var prior := if optimHistory.Some? then optimHistory.value else [];
            var extra := if extraState.Some? then extraState.value else map[];
            var e := LoadOutcome(Some(SavedSnapshot(args, weights, entry, optimHistory, extraState)), criterionName);
            && e.result == Ok(Loaded(Some(Record(extra)), prior + [entry]))
            && e.weights == Some(weights)
            && e.restored == (if entry.criterionName == criterionName then Some(entry) else None)
  {
    SavedSnapshotIsCurrent(args, weights, entry, optimHistory, extraState);
  }

  /** The history a caller holds after saving once per entry of `entries`,
      each save being given the history the load of the previous save
      returned. */
  function HistoryAfterSaves(args: Value, weights: Value, entries: seq<OptimEntry>, criterionName: string): seq<OptimEntry>
  {
    if entries == [] then []
    else
      var prior := HistoryAfterSaves(args, weights, entries[..|entries| - 1], criterionName);
      var saved := SavedSnapshot(args, weights, entries[|entries| - 1], Some(prior), None);
      match LoadOutcome(Some(saved), criterionName).result
      case Ok(loaded) => loaded.history
      case Err(_) => prior
  }

  /** The history is append-only: after N saves it holds exactly the N
      entries in call order. */
  lemma {:induction false} HistoryAppendOnly(args: Value, weights: Value, entries: seq<OptimEntry>, criterionName: string)
    ensures HistoryAfterSaves(args, weights, entries, criterionName) == entries
  {
    if entries != [] {
      var init := entries[..|entries| - 1];
      HistoryAppendOnly(args, weights, init, criterionName);
      SaveLoadRoundTrip(args, weights, entries[|entries| - 1], Some(init), None, criterionName);
      assert init + [entries[|entries| - 1]] == entries;
    }
  }

  /** A legacy snapshot restores the optimizer only under the plain
      cross-entropy criterion, the name its synthesised entry carries. */
  lemma LegacyRestoresOnlyCrossEntropy(args: Value, model: Value, optimizer: Value, bestLoss: Value,
                                       epoch: Value, batchOffset: Value, valLoss: Value, criterion: Criterion)
    ensures var legacy := map["args" := args, "model" := model, "optimizer" := optimizer, "best_loss" := bestLoss,
                              "epoch" := epoch, "batch_offset" := batchOffset, "val_loss" := valLoss];
            var e := LoadOutcome(Some(legacy), ClassName(criterion));
            && e.result.Ok?
            && (e.restored.Some? <==> ClassName(criterion) == CrossEntropyName)
  {
    UpgradeLegacy(args, model, optimizer, bestLoss, epoch, batchOffset, valLoss);
  }
}
