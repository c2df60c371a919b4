/**
  The strategy registry: named load-generation strategies, the display
  names of the contracts each strategy uses, and the selected strategy.
  Every task of the registry is one atomic step on these three pieces of
  state; the strategy library's own values (operations, contracts, start
  identities, signers, chances) are kept opaque.
*/
module Strategies {
  import opened Wrappers

  // ---------------------------------------------------------------------
  // Values of the strategy library, kept opaque

  datatype Operation = Operation(id: nat)
  datatype CreatedDataContract = CreatedDataContract(id: nat)
  /** An identity together with the state transition that creates it. */
  datatype StartIdentity = StartIdentity(id: nat)
  /** A signer and the keys it holds. */
  datatype Signer = Signer(keys: seq<Bytes>)
  /** A floating-point probability. */
  datatype Chance = Chance(id: nat)

  datatype Range = Range(start: nat, end: nat)
  datatype Frequency = Frequency(timesPerBlockRange: Range, chancePerBlock: Option<Chance>)

  /** An empty range of times per block and no chance. */
  const NoFrequency: Frequency := Frequency(Range(0, 0), None)

  datatype ContractWithUpdates = ContractWithUpdates(
    contract: CreatedDataContract,
    updates: Option<map<nat, CreatedDataContract>>)

  datatype Strategy = Strategy(
    contractsWithUpdates: seq<ContractWithUpdates>,
    operations: seq<Operation>,
    startIdentities: seq<StartIdentity>,
    identitiesInserts: Frequency,
    signer: Signer)

  /** A strategy with every field at its default. */
  const EmptyStrategy: Strategy := Strategy([], [], [], NoFrequency, Signer([]))

  /** Display entry of one contract with its updates: the contract's name and the update names by position. */
  datatype ContractNames = ContractNames(contract: string, updates: Option<map<nat, string>>)

  datatype StrategyTask =
    | CreateStrategy(name: string)
    | SelectStrategy(name: string)
    | DeleteStrategy(name: string)
    | CloneStrategy(newName: string)
    | SetContractsWithUpdates(name: string, contractNames: seq<string>)
    | SetIdentityInserts(name: string, frequency: Frequency)
    | SetStartIdentities(name: string, count: nat, keyCount: nat)
    | AddOperation(name: string, operation: Operation)
    | RemoveLastContract(name: string)
    | RemoveIdentityInserts(name: string)
    | RemoveStartIdentities(name: string)
    | RemoveLastOperation(name: string)

  datatype AppStateUpdate =
    | Strategies(all: map<string, Strategy>, allContractNames: map<string, seq<ContractNames>>)
    | SelectedStrategy(name: string, strategy: Strategy, contractNames: seq<ContractNames>)

  datatype BackendEvent =
    /** The task changed nothing. */
    | NoEvent
    | AppStateUpdated(update: AppStateUpdate)
    | TaskCompletedStateChange(task: StrategyTask, executionResult: Result<string, string>, update: AppStateUpdate)

  const StartIdentitiesSet: string := "Start identities set"

  /** A vector after `pop`: the last element removed, or unchanged when empty. */
  function DropLast<T>(s: seq<T>): seq<T> {
    if s == [] then [] else s[..|s| - 1]
  }

  // ---------------------------------------------------------------------
  // Display names of a contract selection

  /**
    The display entries for a selection of contract names: none for an
    empty selection, otherwise one entry holding the first name and every
    later name under its position in the selection.
  */
  function DisplayNames(names: seq<string>): (entries: seq<ContractNames>)
    ensures names == [] <==> entries == []
    ensures |entries| <= 1
  {
    if names == [] then []
    else [ContractNames(names[0], Some(map i: nat | 1 <= i < |names| :: names[i]))]
  }

  /**
    The contract built from a selection of contract names. `converted[i]`
    is the library's contract for the name at position `i`, or None when
    that name is not a known contract or its conversion failed. Without a
    converted first name nothing is built; otherwise every later name that
    converted becomes an update under its position, and an empty set of
    updates is recorded as no updates.
  */
  function CreatedFromSelection(names: seq<string>, converted: seq<Option<CreatedDataContract>>)
    : (created: Option<ContractWithUpdates>)
    requires |converted| == |names|
    ensures created.Some? <==> names != [] && converted[0].Some?
    ensures created.Some? ==> created.value.contract == converted[0].value
    ensures created.Some? && created.value.updates.Some? ==>
      var updates := created.value.updates.value;
      && updates != map[]
      && forall k | k in updates :: 1 <= k < |names| && converted[k] == Some(updates[k])
    ensures created.Some? && created.value.updates.None? ==>
      forall i | 1 <= i < |names| :: converted[i].None?
    ensures created.Some? ==>
      forall i | 1 <= i < |names| && converted[i].Some? ::
        created.value.updates.Some? && i in created.value.updates.value
  {
    if names == [] || converted[0].None? then None
    else
      var updates := map i: nat | 1 <= i < |converted| && converted[i].Some? :: converted[i].value;
      assert forall i | 1 <= i < |names| && converted[i].Some? :: i in updates;
      Some(ContractWithUpdates(converted[0].value, if updates == map[] then None else Some(updates)))
  }

  /**
    The updates of a built contract sit under the same positions as the
    names the display entry shows for them.
  */
  lemma UpdatesKeyedLikeDisplay(names: seq<string>, converted: seq<Option<CreatedDataContract>>)
    requires |converted| == |names|
    requires CreatedFromSelection(names, converted).Some?
    ensures var created := CreatedFromSelection(names, converted).value;
      var shown := DisplayNames(names)[0].updates.value;
      created.updates.Some? ==>
        forall k | k in created.updates.value :: k in shown && shown[k] == names[k]
  {
  }

  /** The update names stored under positions `from`, `from + 1`, ... up to the first gap. */
  function UpdatesFrom(updates: map<nat, string>, from: nat): seq<string>
    decreases set k | k in updates && k >= from
  {
    if from in updates then
      ghost var later := set k | k in updates && k >= from + 1;
      assert from in (set k | k in updates && k >= from) && from !in later;
      assert later < (set k | k in updates && k >= from);
      [updates[from]] + UpdatesFrom(updates, from + 1)
    else []
  }

  /** The names an entry shows, contract first and then its updates in order. */
  function EntryNames(entry: ContractNames): seq<string> {
    [entry.contract] + match entry.updates
      case None => []
      case Some(updates) => UpdatesFrom(updates, 1)
  }

  lemma {:induction false} UpdatesFromSelection(names: seq<string>, from: nat)
    requires 1 <= from <= |names|
    ensures UpdatesFrom(map i: nat | 1 <= i < |names| :: names[i], from) == names[from..]
    decreases |names| - from
  {
    if from < |names| {
      UpdatesFromSelection(names, from + 1);
      assert names[from..] == [names[from]] + names[from + 1..];
    }
  }

  /** Reading a display entry back, contract then updates in order, gives the selection. */
  lemma DisplayNamesRoundTrip(names: seq<string>)
    requires names != []
    ensures EntryNames(DisplayNames(names)[0]) == names
  {
    UpdatesFromSelection(names, 1);
    assert names == [names[0]] + names[1..];
  }

  // ---------------------------------------------------------------------
  // The registry

  class StrategyRegistry {
    var strategies: map<string, Strategy>
    var contractNames: map<string, seq<ContractNames>>
    var selected: Option<string>

    /**
      Both maps know the same names, so looking up the contract names of a
      known strategy never fails, and a selection always names a known
      strategy.
    */
    ghost predicate Valid()
      reads this
    {
      && strategies.Keys == contractNames.Keys
      && (selected.Some? ==> selected.value in strategies)
    }

    /** Every strategy has as many contracts as display entries. */
    ghost predicate Aligned()
      reads this
      requires Valid()
    {
      forall name | name in strategies :: |strategies[name].contractsWithUpdates| == |contractNames[name]|
    }

    /** Whether `task` finds what it works on: a known strategy, or for cloning a selected one. */
    predicate Applies(task: StrategyTask)
      reads this
    {
      match task
      case CreateStrategy(_) => true
      case CloneStrategy(_) => selected.Some? && selected.value in strategies
      case _ => task.name in strategies
    }

    /** The update event for the strategy `name`. */
    function SelectedUpdate(name: string): AppStateUpdate
      reads this
      requires Valid() && name in strategies
    {
      SelectedStrategy(name, strategies[name], contractNames[name])
    }

    constructor ()
      ensures Valid() && Aligned()
      ensures strategies == map[] && contractNames == map[] && selected == None
    {
      strategies := map[];
      contractNames := map[];
      selected := None;
    }

    /** Adds, or replaces, `name` with an empty strategy and no contract names. */
    method CreateStrategy(name: string) returns (event: BackendEvent)
      requires Valid()
      modifies this
      ensures Valid()
      ensures old(Aligned()) ==> Aligned()
      ensures strategies == old(strategies)[name := EmptyStrategy]
      ensures contractNames == old(contractNames)[name := []]
      ensures selected == old(selected)
      ensures event == AppStateUpdated(Strategies(strategies, contractNames))
    {
      strategies := strategies[name := EmptyStrategy];
      contractNames := contractNames[name := []];
      event := AppStateUpdated(Strategies(strategies, contractNames));
    }

    /** Selects `name` if it is a known strategy; otherwise changes nothing. */
    method SelectStrategy(name: string) returns (event: BackendEvent)
      requires Valid()
      modifies this
      ensures Valid()
      ensures strategies == old(strategies) && contractNames == old(contractNames)
      ensures name in strategies ==> selected == Some(name) && event == AppStateUpdated(SelectedUpdate(name))
      ensures name !in strategies ==> selected == old(selected) && event == NoEvent
    {
      if name in strategies {
        selected := Some(name);
        event := AppStateUpdated(SelectedUpdate(name));
      } else {
        event := NoEvent;
      }
    }

    /**
      Removes a known strategy from both maps, clearing the selection if it
      was that strategy; an unknown name changes nothing.
    */
    method DeleteStrategy(name: string) returns (event: BackendEvent)
      requires Valid()
      modifies this
      ensures Valid()
      ensures old(Aligned()) ==> Aligned()
      ensures name in old(strategies) ==>
        && strategies == old(strategies) - {name}
        && contractNames == old(contractNames) - {name}
        && selected == (if old(selected) == Some(name) then None else old(selected))
        && event == AppStateUpdated(Strategies(strategies, contractNames))
      ensures name !in old(strategies) ==>
        && strategies == old(strategies) && contractNames == old(contractNames)
        && selected == old(selected) && event == NoEvent
    {
      if name in strategies {
        strategies := strategies - {name};
        contractNames := contractNames - {name};
        if selected == Some(name) {
          selected := None;
        }
        event := AppStateUpdated(Strategies(strategies, contractNames));
      } else {
        event := NoEvent;
      }
    }

    /**
      Copies the selected strategy and its contract names under `newName`,
      leaving the original and the selection as they are; without a
      selected, known strategy it changes nothing.
    */
    method CloneStrategy(newName: string) returns (event: BackendEvent)
      requires Valid()
      modifies this
      ensures Valid()
      ensures old(Aligned()) ==> Aligned()
      ensures selected == old(selected)
      ensures old(selected).Some? && old(selected).value in old(strategies) ==>
        var source := old(selected).value;
        && strategies == old(strategies)[newName := old(strategies)[source]]
        && contractNames == old(contractNames)[newName := old(contractNames)[source]]
        && event == AppStateUpdated(Strategies(strategies, contractNames))
      ensures !(old(selected).Some? && old(selected).value in old(strategies)) ==>
        strategies == old(strategies) && contractNames == old(contractNames) && event == NoEvent
    {
      if selected.Some? {
        var source := selected.value;
        if source in strategies {
          var cloned := strategies[source];
          var clonedNames := contractNames[source];
          strategies := strategies[newName := cloned];
          contractNames := contractNames[newName := clonedNames];
          event := AppStateUpdated(Strategies(strategies, contractNames));
          return;
        }
      }
      event := NoEvent;
    }

    /**
      Adds a contract selection to a known strategy: the contract built from
      it, when there is one, and its display entry, which is appended
      whether or not a contract was built.
    */
    method SetContractsWithUpdates(name: string, names: seq<string>, converted: seq<Option<CreatedDataContract>>)
      returns (event: BackendEvent)
      requires Valid()
      requires |converted| == |names|
      modifies this
      ensures Valid()
      ensures selected == old(selected)
      ensures name in old(strategies) ==>
        var strategy := old(strategies)[name];
        var created := CreatedFromSelection(names, converted);
        var added := if created.Some? then [created.value] else [];
        && strategies == old(strategies)[name := strategy.(contractsWithUpdates := strategy.contractsWithUpdates + added)]
        && contractNames == old(contractNames)[name := old(contractNames)[name] + DisplayNames(names)]
        && event == AppStateUpdated(SelectedUpdate(name))
      ensures name !in old(strategies) ==>
        strategies == old(strategies) && contractNames == old(contractNames) && event == NoEvent
      ensures old(Aligned()) ==> (Aligned() <==> name !in old(strategies) || names == [] || converted[0].Some?)
    {
      if name in strategies {
        var strategy := strategies[name];
        var created := CreatedFromSelection(names, converted);
        var added := if created.Some? then [created.value] else [];
        strategies := strategies[name := strategy.(contractsWithUpdates := strategy.contractsWithUpdates + added)];
        var display := DisplayNames(names);
        contractNames := contractNames[name := contractNames[name] + display];
        event := AppStateUpdated(SelectedUpdate(name));
      } else {
        event := NoEvent;
      }
    }

    /** Sets how often a known strategy inserts identities. */
    method SetIdentityInserts(name: string, frequency: Frequency) returns (event: BackendEvent)
      requires Valid()
      modifies this
      ensures Valid()
      ensures old(Aligned()) ==> Aligned()
      ensures contractNames == old(contractNames) && selected == old(selected)
      ensures name in old(strategies) ==>
        && strategies == old(strategies)[name := old(strategies)[name].(identitiesInserts := frequency)]
        && event == AppStateUpdated(SelectedUpdate(name))
      ensures name !in old(strategies) ==> strategies == old(strategies) && event == NoEvent
    {
      if name in strategies {
        strategies := strategies[name := strategies[name].(identitiesInserts := frequency)];
        event := AppStateUpdated(SelectedUpdate(name));
      } else {
        event := NoEvent;
      }
    }

    /**
      Replaces the start identities of a known strategy with `identities`,
      the `count` identities with `keyCount` keys each that the library
      generates.
    */
    method SetStartIdentities(name: string, count: nat, keyCount: nat, identities: seq<StartIdentity>)
      returns (event: BackendEvent)
      requires Valid()
      modifies this
      ensures Valid()
      ensures old(Aligned()) ==> Aligned()
      ensures contractNames == old(contractNames) && selected == old(selected)
      ensures name in old(strategies) ==>
        && strategies == old(strategies)[name := old(strategies)[name].(startIdentities := identities)]
        && event == TaskCompletedStateChange(
             StrategyTask.SetStartIdentities(name, count, keyCount), Ok(StartIdentitiesSet), SelectedUpdate(name))
      ensures name !in old(strategies) ==> strategies == old(strategies) && event == NoEvent
    {
      if name in strategies {
        strategies := strategies[name := strategies[name].(startIdentities := identities)];
        event := TaskCompletedStateChange(
          StrategyTask.SetStartIdentities(name, count, keyCount), Ok(StartIdentitiesSet), SelectedUpdate(name));
      } else {
        event := NoEvent;
      }
    }

    /** Appends `operation` to the operations of a known strategy. */
    method AddOperation(name: string, operation: Operation) returns (event: BackendEvent)
      requires Valid()
      modifies this
      ensures Valid()
      ensures old(Aligned()) ==> Aligned()
      ensures contractNames == old(contractNames) && selected == old(selected)
      ensures name in old(strategies) ==>
        var strategy := old(strategies)[name];
        && strategies == old(strategies)[name := strategy.(operations := strategy.operations + [operation])]
        && event == AppStateUpdated(SelectedUpdate(name))
      ensures name !in old(strategies) ==> strategies == old(strategies) && event == NoEvent
    {
      if name in strategies {
        var strategy := strategies[name];
        strategies := strategies[name := strategy.(operations := strategy.operations + [operation])];
        event := AppStateUpdated(SelectedUpdate(name));
      } else {
        event := NoEvent;
      }
    }

    /** Drops the last contract of a known strategy and its last display entry. */
    method RemoveLastContract(name: string) returns (event: BackendEvent)
      requires Valid()
      modifies this
      ensures Valid()
      ensures old(Aligned()) ==> Aligned()
      ensures selected == old(selected)
      ensures name in old(strategies) ==>
        var strategy := old(strategies)[name];
        && strategies == old(strategies)[name := strategy.(contractsWithUpdates := DropLast(strategy.contractsWithUpdates))]
        && contractNames == old(contractNames)[name := DropLast(old(contractNames)[name])]
        && event == AppStateUpdated(SelectedUpdate(name))
      ensures name !in old(strategies) ==>
        strategies == old(strategies) && contractNames == old(contractNames) && event == NoEvent
    {
      if name in strategies {
        var strategy := strategies[name];
        strategies := strategies[name := strategy.(contractsWithUpdates := DropLast(strategy.contractsWithUpdates))];
        contractNames := contractNames[name := DropLast(contractNames[name])];
        event := AppStateUpdated(SelectedUpdate(name));
      } else {
        event := NoEvent;
      }
    }

    /** Resets the identity inserts of a known strategy to an empty range with no chance. */
    method RemoveIdentityInserts(name: string) returns (event: BackendEvent)
      requires Valid()
      modifies this
      ensures Valid()
      ensures old(Aligned()) ==> Aligned()
      ensures contractNames == old(contractNames) && selected == old(selected)
      ensures name in old(strategies) ==>
        && strategies == old(strategies)[name := old(strategies)[name].(identitiesInserts := NoFrequency)]
        && event == AppStateUpdated(SelectedUpdate(name))
      ensures name !in old(strategies) ==> strategies == old(strategies) && event == NoEvent
    {
      if name in strategies {
        strategies := strategies[name := strategies[name].(identitiesInserts := Frequency(Range(0, 0), None))];
        event := AppStateUpdated(SelectedUpdate(name));
      } else {
        event := NoEvent;
      }
    }

    /** Empties the start identities of a known strategy. */
    method RemoveStartIdentities(name: string) returns (event: BackendEvent)
      requires Valid()
      modifies this
      ensures Valid()
      ensures old(Aligned()) ==> Aligned()
      ensures contractNames == old(contractNames) && selected == old(selected)
      ensures name in old(strategies) ==>
        && strategies == old(strategies)[name := old(strategies)[name].(startIdentities := [])]
        && event == AppStateUpdated(SelectedUpdate(name))
      ensures name !in old(strategies) ==> strategies == old(strategies) && event == NoEvent
    {
      if name in strategies {
        strategies := strategies[name := strategies[name].(startIdentities := [])];
        event := AppStateUpdated(SelectedUpdate(name));
      } else {
        event := NoEvent;
      }
    }

    /** Drops the last operation of a known strategy (nothing when it has none). */
    method RemoveLastOperation(name: string) returns (event: BackendEvent)
      requires Valid()
      modifies this
      ensures Valid()
      ensures old(Aligned()) ==> Aligned()
      ensures contractNames == old(contractNames) && selected == old(selected)
      ensures name in old(strategies) ==>
        var strategy := old(strategies)[name];
        && strategies == old(strategies)[name := strategy.(operations := DropLast(strategy.operations))]
        && event == AppStateUpdated(SelectedUpdate(name))
      ensures name !in old(strategies) ==> strategies == old(strategies) && event == NoEvent
    {
      if name in strategies {
        var strategy := strategies[name];
        strategies := strategies[name := strategy.(operations := DropLast(strategy.operations))];
        event := AppStateUpdated(SelectedUpdate(name));
      } else {
        event := NoEvent;
      }
    }

    /**
      Runs one task. `converted` and `identities` stand for what the
      strategy library builds for SetContractsWithUpdates and
      SetStartIdentities. A
      task reports no event exactly when it finds nothing to work on, and
      then it changes nothing.
    */
    method RunStrategyTask(task: StrategyTask, converted: seq<Option<CreatedDataContract>>, identities: seq<StartIdentity>)
      returns (event: BackendEvent)
      requires Valid()
      requires task.SetContractsWithUpdates? ==> |converted| == |task.contractNames|
      modifies this
      ensures Valid()
      ensures event.NoEvent? <==> !old(Applies(task))
      ensures event.NoEvent? ==>
        strategies == old(strategies) && contractNames == old(contractNames) && selected == old(selected)
    {
      match task
      case CreateStrategy(name) => event := CreateStrategy(name);
      case SelectStrategy(name) => event := SelectStrategy(name);
      case DeleteStrategy(name) => event := DeleteStrategy(name);
      case CloneStrategy(newName) => event := CloneStrategy(newName);
      case SetContractsWithUpdates(name, names) => event := SetContractsWithUpdates(name, names, converted);
      case SetIdentityInserts(name, frequency) => event := SetIdentityInserts(name, frequency);
      case SetStartIdentities(name, count, keyCount) => event := SetStartIdentities(name, count, keyCount, identities);
      case AddOperation(name, operation) => event := AddOperation(name, operation);
      case RemoveLastContract(name) => event := RemoveLastContract(name);
      case RemoveIdentityInserts(name) => event := RemoveIdentityInserts(name);
      case RemoveStartIdentities(name) => event := RemoveStartIdentities(name);
      case RemoveLastOperation(name) => event := RemoveLastOperation(name);
    }
  }

  /** Adding an operation and then removing the last one restores the registry. */
  method AddThenRemoveOperation(registry: StrategyRegistry, name: string, operation: Operation)
    requires registry.Valid()
    modifies registry
    ensures registry.strategies == old(registry.strategies)
    ensures registry.contractNames == old(registry.contractNames)
    ensures registry.selected == old(registry.selected)
  {
    var _ := registry.AddOperation(name, operation);
    var _ := registry.RemoveLastOperation(name);
    if name in old(registry.strategies) {
      var strategy := old(registry.strategies)[name];
      assert DropLast(strategy.operations + [operation]) == strategy.operations;
      assert registry.strategies[name] == strategy;
    }
  }
}
