# StardewScript core in Dafny

StardewScript is a SMAPI mod for Stardew Valley that compiles C# script
files at run time and plugs them into the game's events. This project
models its two core pieces and proves what they promise.

- **The script registry** (`ModEntry`). This is the `script` console command:
  - `load`: unload any old copy, compile, register, bind the emergency callback, initialize; on any failure, unload again.
  - `unload`: DeInitialize and Dispose, then always drop the entry.
  - `list`.
  - `clear`: unload every entry of a snapshot of the keys.
  - The emergency shutdown that unloads a script whose event handler threw.
  - `GetScriptFilename`, which adds a missing ".cs" and rejects any other extension.
- **The script lifecycle** (`Framework.Script`):
  - `SetEmergencyShutdownCallback`.
  - `Initialize`: wrap one handler per SMAPI event, attach each with `+=`, then run the user's `InitializeScript`.
  - `DelegateEvent`: a wrapper that catches a user handler's exception and reports it with the script's file name.
  - `DeInitialize`: `-=` of the same 42 handlers.
  - `Dispose`: it does nothing; the Dafny method has no `modifies` clause, so it changes no state.

SMAPI's events are modelled as one handler list per event ("channel"),
with C# multicast-delegate semantics (module `Multicast`):
- `+=` appends.
- `-=` removes the last occurrence of the handler, and does nothing when the handler is absent.

Handlers are objects, so `-=` compares by reference, as it does for delegates
made by separate `DelegateEvent` calls.

The registry invariant `ModEntry.Valid` ties the dictionary to the event
lists. Every loaded path's script:
- holds its own path;
- was initialized against these events;
- has one handler on each channel.

Each channel's list is exactly those handlers, in the order the scripts were
loaded (`ScriptRegistry.Registry`, over a ghost load order). From this
follow the facts about unloading:
- unloading a path removes exactly its own 42 handlers;
- an unloaded script has no handler left anywhere;
- reloading a path starts from the lists without the old copy;
- a failed load leaves every list as it was.

Inputs the model cannot see are parameters:
- the compiler's outcome (`compiler`);
- what the user's `InitializeScript` does (`setup`);
- what a user event handler does (`userHandler`);
- `File.Exists` (`fileExists`).

Each of those outcomes either completes or throws an exception.

Files:
- `wrappers.dfy`: Option and Result.
- `multicast.dfy`: `+=` and `-=`.
- `dotnet_path.dfy`: the `System.IO.Path` members used.
- `smapi_events.dfy`: the 42 channels and the event table.
- `script.dfy`: `Framework.Script` and the handler wrapper.
- `registry.dfy`: the registry invariant and its lemmas.
- `mod_entry.dfy`: `ModEntry`.

## Model

| member | source | states |
|---|---|---|
| Multicast.Combine | StardewScript/Framework/Script.cs:183-234 | `+=` puts the handler at the end and keeps every earlier handler in place |
| Multicast.Remove | StardewScript/Framework/Script.cs:288-339 | `-=` of a handler that is not in the list leaves the list unchanged, and never introduces a handler |
| Multicast.LastIndexOf | StardewScript/Framework/Script.cs:288-339 | a present handler has a last position, and it does not occur after it |
| Multicast.RemoveSplices | StardewScript/Framework/Script.cs:288-339 | `-=` of a present handler cuts out exactly the element at its last position; the rest keeps its order |
| Multicast.CombineThenRemove | StardewScript/Framework/Script.cs:183-339 | `+=` then `-=` of the same handler gives the list back |
| Multicast.RemoveMultiset | StardewScript/Framework/Script.cs:288-339 | `-=` takes exactly one copy of the handler out, or none if it has none |
| Multicast.RemoveOthers | StardewScript/Framework/Script.cs:288-339 | `-=` does not change how often, or whether, any other handler occurs |
| Multicast.CombineMultiset | StardewScript/Framework/Script.cs:183-234 | `+=` adds exactly one copy of the handler |
| DotNetPath.ExtensionDot | StardewScript/ModEntry.cs:202-207 | the dot found is the last one in the file name, with no separator after it; when none is found, every dot of the path has a separator after it |
| DotNetPath.GetExtension | StardewScript/ModEntry.cs:207 | Path.GetExtension is non-empty exactly when Path.HasExtension holds, and is then a suffix that starts at the file name's last '.', with no other '.' and no separator after that one |
| DotNetPath.HasExtension | StardewScript/ModEntry.cs:202 | no contract of its own (a predicate): the file name's last '.' exists and is not its last character; GetExtension's contract and RejectedExactlyForOtherExtensions state what follows from it |
| DotNetPath.Combine | StardewScript/ModEntry.cs:215 | Path.Combine is the first argument when the second is empty and the second when it is rooted or the first is empty; otherwise it starts with the first, ends with the second, and has one separator between them: '\\' is added exactly when the first does not already end in a separator |
| DotNetPath.IsPathRooted | StardewScript/ModEntry.cs:215 | no contract of its own (a predicate): a leading '\\' or '/', or ':' as the second character (a drive letter); Combine's contract states its effect |
| DotNetPath.GetFileName | StardewScript/ModEntry.cs:132 | Path.GetFileName is everything after the last separator: a suffix with no separator in it that is either the whole path or preceded by a separator |
| DotNetPath.ExtensionDotOfSuffix | StardewScript/ModEntry.cs:207 | a prefix does not move the extension dot of a name that has one |
| DotNetPath.ExtensionOfSuffix | StardewScript/ModEntry.cs:207 | a prefix does not change the extension of a name that has one |
| DotNetPath.CombineKeepsExtension | StardewScript/ModEntry.cs:215 | putting the scripts directory in front keeps the name's extension |
| SmapiEvents.AllChannels | StardewScript/Framework/Script.cs:24-90 | the 42 handler fields, each channel once, in attach order |
| SmapiEvents.AttachOrder | StardewScript/Framework/Script.cs:183-234 | position i of the attach order is the i-th event Initialize subscribes to, from Display.MenuChanged to World.TerrainFeatureListChanged |
| SmapiEvents.EventTable.Add | StardewScript/Framework/Script.cs:183-234 | `+=` on one event changes only that event's list |
| SmapiEvents.EventTable.Remove | StardewScript/Framework/Script.cs:288-339 | `-=` on one event changes only that event's list |
| Framework.GuardedHandler.Invoke | StardewScript/Framework/Script.cs:247-260 | a completing handler never calls the callback; a throwing one calls it once with the script's file name and the exception, and nothing escapes to the publisher |
| Framework.Script.constructor | StardewScript/Framework/Script.cs:13-18 | a compiled script has no callback, no helper and null handler fields |
| Framework.Script.SetEmergencyShutdownCallback | StardewScript/Framework/Script.cs:276-280 | stores the file name and the callback, and touches nothing else |
| Framework.Script.DelegateEvent | StardewScript/Framework/Script.cs:247-260 | returns a new wrapper of this script's handler for that event |
| Framework.Script.InvokeEmergencyShutdownCallback | StardewScript/Framework/Script.cs:266-269 | no property of its own beyond passing the stored file name and the exception on; ReportsBoundFilename states which file name that is |
| Framework.ReportsBoundFilename | StardewScript/Framework/Script.cs:265-280 | after SetEmergencyShutdownCallback(f), and whatever Initialize and DeInitialize did, the callback reports f together with the exception |
| Framework.Script.Initialize | StardewScript/Framework/Script.cs:103-239 | without a callback, no list changes, and the logging through the still-null Monitor throws. With a callback, the helper is stored, every field gets a new wrapper and exactly that wrapper is appended to its event's list; the result is then what InitializeScript does |
| Framework.Script.WrapHandlers | StardewScript/Framework/Script.cs:114-178 | every handler field holds a new wrapper of this script for its own event |
| Framework.Script.AttachHandlers | StardewScript/Framework/Script.cs:180-236 | each event's list becomes the old list plus this script's wrapper for it |
| Framework.Script.InitializeScript | StardewScript/Framework/Script.cs:238 | the user hook is reached only once every event's list holds this script's wrapper |
| Framework.Script.DeInitialize | StardewScript/Framework/Script.cs:285-340 | each event's list loses this script's wrapper for it by `-=`; with no helper set, the first `-=` throws |
| Framework.Script.Dispose | StardewScript/Framework/Script.cs:342-344 | no contract of its own: it has no `modifies` clause, so it changes no state |
| Framework.InitializeThenDeInitialize | StardewScript/Framework/Script.cs:103-340 | Initialize followed by DeInitialize restores every event's list |
| ScriptRegistry.OwnerOf | StardewScript/Framework/Script.cs:247-260 | every handler in a list belongs to a loaded path's script, and is its wrapper for that event |
| ScriptRegistry.Restored | StardewScript/ModEntry.cs:183-196 | proof step of the catch block of LoadScript: attaching a script's handlers and detaching them again restores every list |
| ScriptRegistry.AddThenRemove | StardewScript/ModEntry.cs:176-194 | proof step of the catch block of LoadScript (map algebra): registering a new path and removing it again gives the dictionary back |
| ScriptRegistry.OthersUnchanged | StardewScript/ModEntry.cs:167-178 | proof step of LoadScript (map algebra): the other entries do not depend on what, if anything, is under the reloaded path |
| ScriptRegistry.NothingLoaded | StardewScript/ModEntry.cs:16 | empty lists and an empty dictionary satisfy the registry invariant |
| ScriptRegistry.EmptyRegistry | StardewScript/ModEntry.cs:146-149 | with nothing loaded, the load order and every list are empty |
| ScriptRegistry.AppendToOrder | StardewScript/ModEntry.cs:176 | a newly registered path enters the load order once |
| ScriptRegistry.AttachChannel | StardewScript/Framework/Script.cs:183-234 | appending the new script's wrapper equals listing the handlers of the extended load order |
| ScriptRegistry.AttachKeepsWiring | StardewScript/ModEntry.cs:176-178 | the new script's wrappers are wired under its path |
| ScriptRegistry.AttachKeepsRegistry | StardewScript/ModEntry.cs:174-178 | a successful Initialize of a newly registered script keeps the registry invariant |
| ScriptRegistry.RemoveSubscribed | StardewScript/Framework/Script.cs:288-339 | `-=` of a loaded script's wrapper equals listing the handlers of the load order without that path |
| ScriptRegistry.RemoveFromOrder | StardewScript/ModEntry.cs:237 | removing a path from the load order keeps every other path there once |
| ScriptRegistry.DetachChannel | StardewScript/Framework/Script.cs:288-339 | detaching one event's wrapper is the same as dropping the path from that event's list |
| ScriptRegistry.DetachKeepsWiring | StardewScript/ModEntry.cs:226-237 | the other scripts stay wired, and none of them shares a wrapper with the unloaded one |
| ScriptRegistry.DetachKeepsRegistry | StardewScript/ModEntry.cs:226-237 | unloading keeps the registry invariant and leaves none of the unloaded script's wrappers in any list |
| StardewScript.GetScriptFilename | StardewScript/ModEntry.cs:199-216 | no contract of its own; NoExtensionGetsCs, ExtensionKept, RejectedExactlyForOtherExtensions and AcceptedPathIsCsFile state its behaviour |
| StardewScript.CsIsAnExtension | StardewScript/ModEntry.cs:202-205 | proof step of GetScriptFilename: ".cs" is itself an extension, so appending it gives the name an extension |
| StardewScript.NoExtensionGetsCs | StardewScript/ModEntry.cs:202-205 | a name without an extension is accepted with ".cs" appended and put under the scripts directory |
| StardewScript.ExtensionKept | StardewScript/ModEntry.cs:207-215 | a name with an extension is used unchanged, and accepted exactly when that extension is ".cs"; otherwise the error names the extension |
| StardewScript.RejectedExactlyForOtherExtensions | StardewScript/ModEntry.cs:199-216 | GetScriptFilename fails (returns null) if and only if the name has an extension other than ".cs" |
| StardewScript.AcceptedPathIsCsFile | StardewScript/ModEntry.cs:199-216 | every accepted path ends in ".cs", and that is its extension |
| StardewScript.UpperCaseExtensionRejected | StardewScript/ModEntry.cs:209 | the comparison is ordinal: "Test.CS" is rejected |
| StardewScript.ToLowerInvariant | StardewScript/ModEntry.cs:57 | the result has the input's length and no ASCII capital; each capital becomes the same letter in small case and every other character stays in place |
| StardewScript.LowerIsIdempotent | StardewScript/ModEntry.cs:57 | lowering a lowered sub-command changes nothing |
| StardewScript.ParseCommand | StardewScript/ModEntry.cs:49-75 | no contract of its own; ParseCommandReports, ActionOfSubCommand, ArgumentCountChecked, SubCommandCaseInsensitive and EmptyCommand state its behaviour |
| StardewScript.LoadCommand | StardewScript/ModEntry.cs:79-100 | no contract of its own; ArgumentCountChecked, CommandPathIsScriptFile and MissingFileStillLoaded state its behaviour |
| StardewScript.UnloadCommand | StardewScript/ModEntry.cs:102-118 | no contract of its own; ArgumentCountChecked and CommandPathIsScriptFile state its behaviour |
| StardewScript.NoArgumentCommand | StardewScript/ModEntry.cs:120-150 | no contract of its own; ArgumentCountChecked and ActionOfSubCommand state its behaviour for list and clear |
| StardewScript.ParseCommandReports | StardewScript/ModEntry.cs:49-150 | a command that does nothing reports one error; one that acts reports nothing, except a load of a missing file, which reports that and loads |
| StardewScript.CommandPathIsScriptFile | StardewScript/ModEntry.cs:79-118 | load and unload act on GetScriptFilename of the second of exactly two arguments, a ".cs" path |
| StardewScript.SubCommandCaseInsensitive | StardewScript/ModEntry.cs:57 | two sub-commands with the same lower case select the same action on the same arguments, and the same plan when they name a known sub-command |
| StardewScript.UpperCaseSubCommand | StardewScript/ModEntry.cs:57 | an example: ["LOAD", "fps"] is handled as a load |
| StardewScript.ArgumentCountChecked | StardewScript/ModEntry.cs:79-144 | load and unload need exactly one file name; list and clear take none; any other count is reported and does nothing |
| StardewScript.ActionOfSubCommand | StardewScript/ModEntry.cs:49-75 | each action happens if and only if its sub-command and argument checks pass |
| StardewScript.EmptyCommand | StardewScript/ModEntry.cs:51-55 | no sub-command is reported and does nothing |
| StardewScript.MissingFileStillLoaded | StardewScript/ModEntry.cs:94-99 | a missing file is reported and the load goes ahead anyway |
| StardewScript.ModEntry.constructor | StardewScript/ModEntry.cs:16-18 | the scripts directory is Path.Combine(execution path, "Scripts"); nothing is loaded and the invariant holds |
| StardewScript.ModEntry.TearDown | StardewScript/ModEntry.cs:226-230 | DeInitialize and Dispose of a registered script complete, detaching exactly its wrappers |
| StardewScript.ModEntry.UnloadScript | StardewScript/ModEntry.cs:218-238 | an unloaded path changes nothing. A loaded one loses exactly its entry and exactly its 42 wrappers; no other entry changes and none of its wrappers remains |
| StardewScript.ModEntry.InstallScript | StardewScript/ModEntry.cs:176-178 | the entry is added first, the callback is bound to the same path before Initialize, and every list gains exactly the new script's wrapper |
| StardewScript.ModEntry.Rollback | StardewScript/ModEntry.cs:192-195 | unloading the half-loaded script removes its entry and restores every list to what it was before the load |
| StardewScript.ModEntry.AddScript | StardewScript/ModEntry.cs:172-196 | a compile or Initialize failure leaves the dictionary and the lists as they were; success registers a new script under the path, with its wrappers appended |
| StardewScript.ModEntry.LoadScript | StardewScript/ModEntry.cs:163-197 | the path ends up loaded exactly when compile and Initialize succeed, with a new script and no trace of the old copy. On failure it is not loaded and the old copy is not restored. No other entry changes |
| StardewScript.ModEntry.EmergencyShutdown | StardewScript/ModEntry.cs:218-242 | the dictionary loses exactly the reported path and each list loses exactly that script's wrapper; for a path no longer loaded the dictionary and the lists are unchanged, so a second shutdown is a no-op |
| StardewScript.ModEntry.Deliver | StardewScript/Framework/Script.cs:247-268 | a completing handler changes nothing; a throwing one reports its own script's path, the dictionary loses exactly that path, and each list loses exactly that script's wrapper, so every other script stays loaded and attached |
| StardewScript.ModEntry.HandleCommand | StardewScript/ModEntry.cs:49-75 | runs exactly the registry operation the argument checks select, with that operation's effect on the dictionary and the lists (for load: a fresh script bound to the path, appended to the lists without the old copy) and, for list, the listing |
| StardewScript.ModEntry.Perform | StardewScript/ModEntry.cs:79-150 | the operation each Handle<Sub-command> performs once its checks pass |
| StardewScript.ModEntry.ClearScripts | StardewScript/ModEntry.cs:146-149 | unloading every path of a snapshot of the keys leaves the dictionary and every list empty |
| StardewScript.ModEntry.ListScripts | StardewScript/ModEntry.cs:128-133 | line i is the file name of key i of an enumeration that holds every loaded path exactly once, so file names shared by two paths are listed twice |

## Left out

- Log and console text: `Monitor.Log`, `PrintUsageError`, the help text and the "Loaded Scripts:" output. Only which usage errors are printed, in order, is modelled (`Plan.errors`), and what `list` prints as a sequence of file names.
- Registration of the console command, and `Directory.CreateDirectory` in `Entry`: both are I/O.
- Compilation with CSScript/Roslyn: a foreign call, modelled as an outcome parameter. A successful compile yields a fresh script.
- What `File.Exists` answers: a parameter.
- Other mods' event handlers are not in the event lists; SMAPI's actual event dispatch is not modelled. `Deliver` models one handler call.
- The callback stored by `SetEmergencyShutdownCallback`: only whether it is set is modelled. ModEntry always passes its own `EmergencyShutdown`, which `Deliver` runs when a wrapper reports.
- The `sender` and event arguments passed to handlers: user handlers are outcome parameters.
- `Path` is modelled with .NET Framework semantics on Windows (separators '\\', '/' and ':'); `Path.CheckInvalidPathChars` (an `ArgumentException` on invalid characters) is not modelled.
- StardewScript.ToLowerInvariant: only ASCII letters are lowered; other Unicode case mappings are not modelled.
- The order in which `list` and `clear` enumerate the dictionary: .NET leaves it unspecified, so `ListScripts` lists the keys in an unspecified (ghost) enumeration order and `ClearScripts` takes any element of the snapshot.
- StardewScript.ModEntry.UnloadScript: the catch block at ModEntry.cs:231-235 is not modelled as reachable. A registered script was initialized with a callback, so its DeInitialize and Dispose cannot throw.
- Script.Overridables.cs (the 42 empty `On<Event>` hooks and the `ModHelper`/`Monitor` properties), IScript.cs and Examples/fps.cs are not part of this model. The hooks are the `userHandler` and `setup` outcomes.
- The load order of scripts is ghost state; the source has none. It only serves to state which handler list the SMAPI events hold.
