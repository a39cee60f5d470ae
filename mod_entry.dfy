/**
  StardewScript.ModEntry: the SMAPI mod that owns the script registry. It
  turns console arguments into script paths, loads a script (compile,
  register, bind the emergency callback, initialize), unloads it (always
  dropping the entry, whatever its teardown does) and unloads on demand
  when a wrapped handler reports a fault.
*/
module StardewScript {

  import opened Wrappers
  import opened DotNetPath
  import opened SmapiEvents
  import opened Framework
  import opened ScriptRegistry
  import Multicast

  // ---------------------------------------------------------------------
  // Console arguments
  // ---------------------------------------------------------------------

  /** What PrintUsageError reports (GetScriptFilename reports a bad extension itself). */
  datatype UsageError =
    | NoSubCommand
    | UnknownSubCommand(name: string)
    | NoFilenameGiven
    | TakesNoParameters
    | InvalidExtension(extension: string)
    | ScriptMissing(path: string)

  /** The registry operation a console command goes on to perform. */
  datatype Action =
    | NoAction
    | LoadAction(path: string)
    | UnloadAction(path: string)
    | ListAction
    | ClearAction

  /** The errors a command prints, in order, and what it then does. */
  datatype Plan = Plan(errors: seq<UsageError>, action: Action)

  const ScriptExtension: string := ".cs"

  /**
    GetScriptFilename: adds ".cs" to a name without an extension, rejects
    any extension other than ".cs" (ordinal comparison) and otherwise puts
    the name under the scripts directory with Path.Combine.
  */
  function GetScriptFilename(scriptsDirectory: string, filename: string): (r: Result<string, UsageError>)
  {
    var name := if !HasExtension(filename) then filename + ScriptExtension else filename;
    var extension := GetExtension(name);
    if extension != ScriptExtension then Failure(InvalidExtension(extension))
    else Success(Combine(scriptsDirectory, name))
  }

  /** ".cs" is a well-formed extension on its own. */
  lemma CsIsAnExtension()
    ensures ExtensionDot(ScriptExtension) == Some(0)
    ensures HasExtension(ScriptExtension) && GetExtension(ScriptExtension) == ScriptExtension
  {
    assert ScriptExtension[..2] == ".c";
    assert ScriptExtension[..2][..1] == ".";
  }

  /** A name without an extension is always accepted, with ".cs" appended. */
  lemma {:induction false} NoExtensionGetsCs(scriptsDirectory: string, filename: string)
    requires !HasExtension(filename)
    ensures GetScriptFilename(scriptsDirectory, filename) == Success(Combine(scriptsDirectory, filename + ScriptExtension))
  {
    CsIsAnExtension();
    ExtensionOfSuffix(filename, ScriptExtension);
  }

  /** A name with an extension is used unchanged, and accepted exactly when that extension is ".cs". */
  lemma ExtensionKept(scriptsDirectory: string, filename: string)
    requires HasExtension(filename)
    ensures GetScriptFilename(scriptsDirectory, filename).Success? <==> GetExtension(filename) == ScriptExtension
    ensures GetScriptFilename(scriptsDirectory, filename).Success? ==>
      GetScriptFilename(scriptsDirectory, filename).value == Combine(scriptsDirectory, filename)
    ensures GetScriptFilename(scriptsDirectory, filename).Failure? ==>
      GetScriptFilename(scriptsDirectory, filename).error == InvalidExtension(GetExtension(filename))
  {
  }

  /** The name is rejected exactly when it carries an extension other than ".cs". */
  lemma {:induction false} RejectedExactlyForOtherExtensions(scriptsDirectory: string, filename: string)
    ensures GetScriptFilename(scriptsDirectory, filename).Failure? <==>
      HasExtension(filename) && GetExtension(filename) != ScriptExtension
  {
    if !HasExtension(filename) {
      NoExtensionGetsCs(scriptsDirectory, filename);
    }
  }

  /** Every accepted path names a ".cs" file: it ends in ".cs" and that is its extension. */
  lemma {:induction false} AcceptedPathIsCsFile(scriptsDirectory: string, filename: string)
    requires GetScriptFilename(scriptsDirectory, filename).Success?
    ensures var path := GetScriptFilename(scriptsDirectory, filename).value;
      EndsWith(path, ScriptExtension) && GetExtension(path) == ScriptExtension
  {
    var name := if !HasExtension(filename) then filename + ScriptExtension else filename;
    if !HasExtension(filename) {
      CsIsAnExtension();
      ExtensionOfSuffix(filename, ScriptExtension);
    }
    CombineKeepsExtension(scriptsDirectory, name);
  }

  /** The comparison is ordinal: an upper-case ".CS" is rejected. */
  lemma UpperCaseExtensionRejected(scriptsDirectory: string)
    ensures GetScriptFilename(scriptsDirectory, "Test.CS") == Failure(InvalidExtension(".CS"))
  {
    var name := "Test.CS";
    assert ExtensionDot(name[..6]) == Some(4);
    assert ExtensionDot(name) == Some(4);
  }

  predicate IsAsciiUpper(ch: char) {
    'A' <= ch <= 'Z'
  }

  /**
    String.ToLowerInvariant, for the ASCII letters: the result has no capital
    letter left, each capital becomes the small letter of the same name, and
    every other character is kept in place.
  */
  function ToLowerInvariant(s: string): (r: string)
    ensures |r| == |s|
    ensures forall i :: 0 <= i < |r| ==> !IsAsciiUpper(r[i])
    ensures forall i :: 0 <= i < |s| && !IsAsciiUpper(s[i]) ==> r[i] == s[i]
    ensures forall i :: 0 <= i < |s| && IsAsciiUpper(s[i]) ==> r[i] as int - 'a' as int == s[i] as int - 'A' as int
  {
    seq(|s|, i requires 0 <= i < |s| => if 'A' <= s[i] <= 'Z' then (s[i] as int + 32) as char else s[i])
  }

  /** Lowering twice lowers once: a lowered string is its own lower case. */
  lemma LowerIsIdempotent(s: string)
    ensures ToLowerInvariant(ToLowerInvariant(s)) == ToLowerInvariant(s)
  {
  }

  /** HandleLoadScript's checks. A missing file is reported, and the load still goes ahead. */
  function LoadCommand(scriptsDirectory: string, args: seq<string>, fileExists: string -> bool): Plan
  {
    if |args| != 2 then Plan([NoFilenameGiven], NoAction)
    else match GetScriptFilename(scriptsDirectory, args[1])
      case Failure(e) => Plan([e], NoAction)
      case Success(path) => Plan(if fileExists(path) then [] else [ScriptMissing(path)], LoadAction(path))
  }

  /** HandleUnloadScript's checks. */
  function UnloadCommand(scriptsDirectory: string, args: seq<string>): Plan
  {
    if |args| != 2 then Plan([NoFilenameGiven], NoAction)
    else match GetScriptFilename(scriptsDirectory, args[1])
      case Failure(e) => Plan([e], NoAction)
      case Success(path) => Plan([], UnloadAction(path))
  }

  /** HandleListScripts' and HandleClearScripts' check: the sub-command alone. */
  function NoArgumentCommand(args: seq<string>, action: Action): Plan
  {
    if |args| != 1 then Plan([TakesNoParameters], NoAction) else Plan([], action)
  }

  /**
    HandleCommand: `args[0]` is the sub-command, compared after
    ToLowerInvariant; `fileExists` stands for File.Exists.
  */
  function ParseCommand(scriptsDirectory: string, args: seq<string>, fileExists: string -> bool): Plan
  {
    if |args| < 1 then Plan([NoSubCommand], NoAction)
    else
      var sub := ToLowerInvariant(args[0]);
      if sub == "load" then LoadCommand(scriptsDirectory, args, fileExists)
      else if sub == "unload" then UnloadCommand(scriptsDirectory, args)
      else if sub == "list" then NoArgumentCommand(args, ListAction)
      else if sub == "clear" then NoArgumentCommand(args, ClearAction)
      else Plan([UnknownSubCommand(args[0])], NoAction)
  }

  /**
    A command does something exactly when it prints nothing, except that a
    load of a missing file prints one error and loads anyway; a command that
    does nothing prints exactly one error.
  */
  lemma {:induction false} ParseCommandReports(scriptsDirectory: string, args: seq<string>, fileExists: string -> bool)
    ensures var plan := ParseCommand(scriptsDirectory, args, fileExists);
      (plan.action == NoAction ==> |plan.errors| == 1) &&
      (plan.action != NoAction && plan.errors != [] ==> plan.action.LoadAction? && plan.errors == [ScriptMissing(plan.action.path)])
  {
  }

  /** Load and unload act on the path GetScriptFilename made of the second argument, always a ".cs" file. */
  lemma {:induction false} CommandPathIsScriptFile(scriptsDirectory: string, args: seq<string>, fileExists: string -> bool)
    requires ParseCommand(scriptsDirectory, args, fileExists).action.LoadAction?
      || ParseCommand(scriptsDirectory, args, fileExists).action.UnloadAction?
    ensures |args| == 2
    ensures var path := ParseCommand(scriptsDirectory, args, fileExists).action.path;
      GetScriptFilename(scriptsDirectory, args[1]) == Success(path) && EndsWith(path, ScriptExtension)
  {
    var sub := ToLowerInvariant(args[0]);
    assert sub == "load" || sub == "unload";
    AcceptedPathIsCsFile(scriptsDirectory, args[1]);
  }

  /**
    The sub-command is compared case-insensitively: two sub-commands with the
    same lower case select the same action on the same arguments, and, when
    they name a known sub-command, print the same errors.
  */
  lemma {:induction false} SubCommandCaseInsensitive(scriptsDirectory: string, a: string, b: string, rest: seq<string>, fileExists: string -> bool)
    requires ToLowerInvariant(a) == ToLowerInvariant(b)
    ensures ParseCommand(scriptsDirectory, [a] + rest, fileExists).action == ParseCommand(scriptsDirectory, [b] + rest, fileExists).action
    ensures ToLowerInvariant(a) in {"load", "unload", "list", "clear"} ==>
      ParseCommand(scriptsDirectory, [a] + rest, fileExists) == ParseCommand(scriptsDirectory, [b] + rest, fileExists)
  {
    var argsA, argsB := [a] + rest, [b] + rest;
    assert |argsA| == |argsB| && argsA[0] == a && argsB[0] == b;
    if |rest| >= 1 {
      assert argsA[1] == argsB[1] == rest[0];
    }
  }

  /** For instance "LOAD" is "load". */
  lemma UpperCaseSubCommand(scriptsDirectory: string, fileExists: string -> bool)
    ensures ParseCommand(scriptsDirectory, ["LOAD", "fps"], fileExists) == LoadCommand(scriptsDirectory, ["LOAD", "fps"], fileExists)
  {
    var lowered := ToLowerInvariant("LOAD");
    assert lowered[0] == 'l' && lowered[1] == 'o' && lowered[2] == 'a' && lowered[3] == 'd';
    assert lowered == "load";
  }

  /**
    Every wrong argument count is reported and acted on no further: load and
    unload take exactly a file name, list and clear nothing.
  */
  lemma ArgumentCountChecked(scriptsDirectory: string, args: seq<string>, fileExists: string -> bool)
    requires |args| >= 1
    ensures var sub := ToLowerInvariant(args[0]);
      (sub == "load" || sub == "unload") && |args| != 2 ==>
        ParseCommand(scriptsDirectory, args, fileExists) == Plan([NoFilenameGiven], NoAction)
    ensures var sub := ToLowerInvariant(args[0]);
      (sub == "list" || sub == "clear") && |args| != 1 ==>
        ParseCommand(scriptsDirectory, args, fileExists) == Plan([TakesNoParameters], NoAction)
  {
  }

  /** The action a command takes follows from its sub-command alone, once the arguments pass. */
  lemma ActionOfSubCommand(scriptsDirectory: string, args: seq<string>, fileExists: string -> bool)
    requires |args| >= 1
    ensures var sub := ToLowerInvariant(args[0]);
      var action := ParseCommand(scriptsDirectory, args, fileExists).action;
      (action.LoadAction? <==> sub == "load" && |args| == 2 && GetScriptFilename(scriptsDirectory, args[1]).Success?) &&
      (action.UnloadAction? <==> sub == "unload" && |args| == 2 && GetScriptFilename(scriptsDirectory, args[1]).Success?) &&
      (action == ListAction <==> sub == "list" && |args| == 1) &&
      (action == ClearAction <==> sub == "clear" && |args| == 1)
  {
  }

  /** An empty command line reports the missing sub-command and does nothing. */
  lemma EmptyCommand(scriptsDirectory: string, fileExists: string -> bool)
    ensures ParseCommand(scriptsDirectory, [], fileExists) == Plan([NoSubCommand], NoAction)
  {
  }

  /** A load whose file does not exist reports it and still loads. */
  lemma MissingFileStillLoaded(scriptsDirectory: string, args: seq<string>, fileExists: string -> bool)
    requires |args| == 2 && ToLowerInvariant(args[0]) == "load"
    requires GetScriptFilename(scriptsDirectory, args[1]).Success?
    requires !fileExists(GetScriptFilename(scriptsDirectory, args[1]).value)
    ensures var path := GetScriptFilename(scriptsDirectory, args[1]).value;
      ParseCommand(scriptsDirectory, args, fileExists) == Plan([ScriptMissing(path)], LoadAction(path))
  {
  }

  // ---------------------------------------------------------------------
  // The mod
  // ---------------------------------------------------------------------

  /** What UnloadScript did: nothing (the path is not loaded), or a teardown and the removal. */
  datatype UnloadStatus = NotLoaded | Unloaded(teardown: Outcome)

  /** How the load ended; the two failures are the exceptions its catch block logs. */
  datatype LoadStatus = Loaded | CompileFailed(error: Exception) | InitializeFailed(error: Exception)

  class ModEntry {
    /** `_scriptsDirectory` */
    const scriptsDirectory: string
    /** `_helper.Events`, restricted to the handlers of this mod's scripts. */
    const events: Events
    /** `_loadedScripts`, keyed by full script path. */
    var loadedScripts: map<string, Script>
    /** The handler fields of each loaded script, as Initialize left them. */
    ghost var wiring: map<string, Wiring>
    /** The loaded paths in the order their scripts attached their handlers. */
    ghost var order: seq<string>

    /** Each loaded script was initialized, under its own path, against these events. */
    ghost predicate Mirrored()
      reads this, loadedScripts.Values
    {
      forall p | p in loadedScripts ::
        p in wiring && loadedScripts[p].hasCallback && loadedScripts[p].scriptFilename == p &&
        loadedScripts[p].modHelper == events && loadedScripts[p].handlers == wiring[p]
    }

    ghost predicate Valid()
      reads this, events, loadedScripts.Values
    {
      events.Valid() && Mirrored() && Wired(loadedScripts, wiring) && Registry(events.table, order, wiring)
    }

    /** A channel's list once the script loaded under `path`, if there is one, has been detached. */
    ghost function Detached(path: string, c: Channel): seq<GuardedHandler>
      reads this, events, loadedScripts.Values
      requires Valid()
    {
      if path in loadedScripts then Multicast.Remove(events.table[c], loadedScripts[path].handlers[c]) else events.table[c]
    }

    /** Entry: the scripts directory lies under the game's execution path; nothing is loaded. */
    constructor (executionPath: string)
      ensures Valid() && fresh(events)
      ensures scriptsDirectory == Combine(executionPath, "Scripts") && loadedScripts == map[]
    {
      events := new EventTable();
      loadedScripts := map[];
      wiring := map[];
      order := [];
      scriptsDirectory := Combine(executionPath, "Scripts");
      new;
      assert events.Valid();
      assert Wired(loadedScripts, wiring);
      assert Registry(events.table, order, wiring) by {
        NothingLoaded(events.table);
      }
      assert Mirrored();
    }

    /**
      The try block of UnloadScript: DeInitialize, then Dispose, of a loaded
      script. A loaded script was initialized, so neither throws.
    */
    method TearDown(path: string) returns (teardown: Outcome)
      requires Valid() && path in loadedScripts
      modifies events
      ensures teardown == Completed && events.Valid()
      ensures forall c: Channel :: events.table[c] == Multicast.Remove(old(events.table)[c], loadedScripts[path].handlers[c])
    {
      var script := loadedScripts[path];
      assert script.handlers == wiring[path] && script.modHelper == events;
      assert script.Wired() by {
        assert forall c: Channel :: c in script.handlers && script.handlers[c].owner == script && script.handlers[c].channel == c;
      }
      teardown := script.DeInitialize();
      if teardown.Completed? {
        script.Dispose();
      }
    }

    /**
      UnloadScript: an unknown path only logs. Otherwise the script is
      de-initialized (and disposed when that completes); an exception from
      either is caught and logged, and the entry is removed in every case.
    */
    method UnloadScript(path: string) returns (status: UnloadStatus)
      requires Valid()
      modifies this, events
      ensures Valid()
      ensures path !in old(loadedScripts) ==> status == NotLoaded && loadedScripts == old(loadedScripts) && events.table == old(events.table)
      ensures path in old(loadedScripts) ==> status == Unloaded(Completed) && loadedScripts == old(loadedScripts) - {path}
      ensures path in old(loadedScripts) ==> forall c: Channel ::
        events.table[c] == Multicast.Remove(old(events.table)[c], old(loadedScripts[path].handlers[c]))
      ensures path in old(loadedScripts) ==> forall c: Channel :: old(loadedScripts[path].handlers[c]) !in events.table[c]
    {
      if path !in loadedScripts {
        return NotLoaded;
      }
      var script := loadedScripts[path];
      var teardown := TearDown(path);
      loadedScripts := loadedScripts - {path};
      wiring := wiring - {path};
      order := Multicast.Remove(order, path);
      status := Unloaded(teardown);
      assert Mirrored() by {
        forall p | p in loadedScripts ensures loadedScripts[p] == old(loadedScripts[p]) && p in old(wiring) && wiring[p] == old(wiring[p]) {
        }
      }
      assert forall q | q in old(loadedScripts) && q != path :: old(loadedScripts)[q] != script by {
        forall q | q in old(loadedScripts) && q != path ensures old(loadedScripts)[q] != script {
          assert old(loadedScripts)[q].scriptFilename == q;
        }
      }
      DetachKeepsRegistry(old(events.table), old(order), old(loadedScripts), old(wiring), path, events.table);
    }

    /**
      The try block of LoadScript, for a path that is not loaded:
      `compiler` is what the compiler does with the file (on Completed it
      yields a new Script), `setup` what the script's InitializeScript
      does. The script is registered before it is initialized, so when
      initializing throws, the catch block finds it registered and unloads it.
    */
    method AddScript(path: string, compiler: Outcome, setup: Outcome) returns (status: LoadStatus)
      requires Valid() && path !in loadedScripts
      modifies this, events
      ensures Valid()
      ensures status == (if compiler.Threw? then CompileFailed(compiler.error) else if setup.Threw? then InitializeFailed(setup.error) else Loaded)
      ensures status != Loaded ==> loadedScripts == old(loadedScripts) && forall c: Channel :: events.table[c] == old(events.table)[c]
      ensures status == Loaded ==> path in loadedScripts && loadedScripts == old(loadedScripts)[path := loadedScripts[path]]
      ensures status == Loaded ==> fresh(loadedScripts[path]) && loadedScripts[path].scriptFilename == path
      ensures status == Loaded ==> forall c: Channel :: events.table[c] == Multicast.Combine(old(events.table)[c], loadedScripts[path].handlers[c])
    {
      if compiler.Threw? {
        return CompileFailed(compiler.error);
      }
      var script := new Script();
      var r := InstallScript(path, script, setup);
      if r.Threw? {
        status := InitializeFailed(r.error);
        Rollback(path, old(events.table));
        AddThenRemove(old(loadedScripts), path, script);
      } else {
        status := Loaded;
      }
    }

    /**
      The registration and initialization steps of LoadScript's try block:
      the compiled script is added under `path`, gets the callback with
      `path` as its file name, and is initialized against the events.
    */
    method InstallScript(path: string, script: Script, setup: Outcome) returns (r: Outcome)
      requires Valid() && path !in loadedScripts && script !in loadedScripts.Values
      requires script.Valid() && script.modHelper == null
      modifies this, events, script
      ensures Valid() && r == setup
      ensures loadedScripts == old(loadedScripts)[path := script] && script.scriptFilename == path && script.Wired()
      ensures forall c: Channel :: events.table[c] == Multicast.Combine(old(events.table)[c], script.handlers[c])
    {
      loadedScripts := loadedScripts[path := script];
      script.SetEmergencyShutdownCallback(path);
      r := script.Initialize(events, setup);
      wiring := wiring[path := script.handlers];
      order := Multicast.Combine(order, path);
      assert Mirrored() by {
        forall p | p in loadedScripts
          ensures p in wiring && loadedScripts[p].hasCallback && loadedScripts[p].scriptFilename == p
          ensures loadedScripts[p].modHelper == events && loadedScripts[p].handlers == wiring[p]
        {
          if p != path {
            var s := old(loadedScripts[p]);
            assert s in old(loadedScripts).Values && s != script;
          }
        }
      }
      AttachKeepsRegistry(old(events.table), old(order), old(loadedScripts), old(wiring), path, script, script.handlers, events.table);
    }

    /**
      The catch block of LoadScript once the script is registered: unloading
      it takes off the handlers Initialize attached, so every channel is as
      it was before the load.
    */
    method Rollback(path: string, ghost before: HandlerTable)
      requires Valid() && path in loadedScripts
      requires forall c: Channel :: c in before && events.table[c] == Multicast.Combine(before[c], loadedScripts[path].handlers[c])
      modifies this, events
      ensures Valid() && loadedScripts == old(loadedScripts) - {path}
      ensures forall c: Channel :: events.table[c] == before[c]
    {
      Restored(before, loadedScripts[path].handlers);
      var _ := UnloadScript(path);
    }

    /**
      LoadScript: a path that is already loaded is unloaded first, so a load
      is also a reload; then the script is compiled, registered and
      initialized. Whatever fails, the path ends up either loaded with the
      new script or not loaded at all, and no other entry changes.
    */
    method LoadScript(path: string, compiler: Outcome, setup: Outcome) returns (status: LoadStatus)
      requires Valid()
      modifies this, events
      ensures Valid()
      ensures status == (if compiler.Threw? then CompileFailed(compiler.error) else if setup.Threw? then InitializeFailed(setup.error) else Loaded)
      ensures path in loadedScripts <==> status == Loaded
      ensures loadedScripts - {path} == old(loadedScripts) - {path}
      ensures status == Loaded ==> fresh(loadedScripts[path]) && loadedScripts[path].scriptFilename == path
      ensures forall c: Channel :: (events.table[c] ==
        if status == Loaded then Multicast.Combine(old(Detached(path, c)), loadedScripts[path].handlers[c]) else old(Detached(path, c)))
    {
      if path in loadedScripts {
        OthersUnchanged(loadedScripts, path, loadedScripts[path]);
        var _ := UnloadScript(path);
      }
      ghost var unloaded := loadedScripts;
      status := AddScript(path, compiler, setup);
      if status == Loaded {
        OthersUnchanged(unloaded, path, loadedScripts[path]);
      }
    }

    /**
      EmergencyShutdown, the callback every script gets: unloads the script
      that reported the exception (the log message is not modelled).
    */
    method EmergencyShutdown(report: Report) returns (status: UnloadStatus)
      requires Valid()
      modifies this, events
      ensures Valid()
      ensures status == (if report.scriptFilename in old(loadedScripts) then Unloaded(Completed) else NotLoaded)
      ensures loadedScripts == old(loadedScripts) - {report.scriptFilename}
      ensures forall c: Channel :: events.table[c] == old(Detached(report.scriptFilename, c))
      ensures report.scriptFilename in old(loadedScripts) ==>
        forall c: Channel :: old(loadedScripts[report.scriptFilename].handlers[c]) !in events.table[c]
    {
      status := UnloadScript(report.scriptFilename);
    }

    /**
      SMAPI raising channel `c` and calling one of its handlers, `h`;
      `userHandler` is what the script's On<Event> does. A handler that
      completes changes nothing. One that throws reports its script's own
      path, and that script is unloaded on the spot.
    */
    method Deliver(c: Channel, h: GuardedHandler, userHandler: Outcome) returns (report: Option<Report>)
      requires Valid() && h in events.table[c]
      modifies this, events
      ensures Valid()
      ensures userHandler.Completed? ==> report == None && loadedScripts == old(loadedScripts) && events.table == old(events.table)
      ensures userHandler.Threw? ==> report.Some? && report.value.error == userHandler.error
      ensures userHandler.Threw? ==> var path := report.value.scriptFilename;
        path in old(loadedScripts) && old(loadedScripts[path]) == h.owner && loadedScripts == old(loadedScripts) - {path}
      ensures userHandler.Threw? ==> forall c': Channel ::
        events.table[c'] == Multicast.Remove(old(events.table)[c'], old(h.owner.handlers[c'])) && old(h.owner.handlers[c']) !in events.table[c']
    {
      ghost var path := OwnerOf(events.table, order, wiring, c, h);
      assert h.owner == loadedScripts[path];
      report := h.Invoke(userHandler);
      if report.Some? {
        var _ := EmergencyShutdown(report.value);
      }
    }

    /** HandleClearScripts: unloads every path of a snapshot of the keys, one at a time. */
    method ClearScripts()
      requires Valid()
      modifies this, events
      ensures Valid()
      ensures loadedScripts == map[] && forall c: Channel :: events.table[c] == []
    {
      var paths := loadedScripts.Keys;
      while paths != {}
        invariant Valid() && loadedScripts.Keys == paths
        decreases paths
      {
        var path :| path in paths;
        var _ := UnloadScript(path);
        paths := paths - {path};
      }
      assert wiring == map[];
      EmptyRegistry(events.table, order);
    }

    /**
      HandleCommand: the checks of ParseCommand decide which registry
      operation, if any, runs. `fileExists` stands for File.Exists, and
      `compiler` and `setup` for what compiling the script and its
      InitializeScript do; `listing` is what the list sub-command prints.
    */
    method HandleCommand(args: seq<string>, fileExists: string -> bool, compiler: Outcome, setup: Outcome)
      returns (plan: Plan, listing: seq<string>, ghost keys: seq<string>)
      requires Valid()
      modifies this, events
      ensures Valid()
      ensures plan == ParseCommand(scriptsDirectory, args, fileExists)
      ensures plan.action.NoAction? || plan.action.ListAction? ==>
        loadedScripts == old(loadedScripts) && events.table == old(events.table)
      ensures plan.action.ListAction? ==> Enumerates(listing, keys)
      ensures !plan.action.ListAction? ==> listing == []
      ensures plan.action.LoadAction? ==> (var path := plan.action.path;
        (path in loadedScripts <==> compiler.Completed? && setup.Completed?) &&
        loadedScripts - {path} == old(loadedScripts) - {path} &&
        (path in loadedScripts ==> fresh(loadedScripts[path]) && loadedScripts[path].scriptFilename == path) &&
        forall c: Channel :: events.table[c] ==
          if path in loadedScripts then Multicast.Combine(old(Detached(path, c)), loadedScripts[path].handlers[c]) else old(Detached(path, c)))
      ensures plan.action.UnloadAction? ==> (var path := plan.action.path;
        loadedScripts == old(loadedScripts) - {path} && forall c: Channel :: events.table[c] == old(Detached(path, c)))
      ensures plan.action.ClearAction? ==> loadedScripts == map[] && forall c: Channel :: events.table[c] == []
    {
      plan := ParseCommand(scriptsDirectory, args, fileExists);
      listing, keys := Perform(plan.action, compiler, setup);
    }

    /** The Handle<Sub-command> methods once their checks have passed. */
    method Perform(action: Action, compiler: Outcome, setup: Outcome) returns (listing: seq<string>, ghost keys: seq<string>)
      requires Valid()
      modifies this, events
      ensures Valid()
      ensures action.NoAction? || action.ListAction? ==> loadedScripts == old(loadedScripts) && events.table == old(events.table)
      ensures action.ListAction? ==> Enumerates(listing, keys)
      ensures !action.ListAction? ==> listing == []
      ensures action.LoadAction? ==> (var path := action.path;
        (path in loadedScripts <==> compiler.Completed? && setup.Completed?) &&
        loadedScripts - {path} == old(loadedScripts) - {path} &&
        (path in loadedScripts ==> fresh(loadedScripts[path]) && loadedScripts[path].scriptFilename == path) &&
        forall c: Channel :: events.table[c] ==
          if path in loadedScripts then Multicast.Combine(old(Detached(path, c)), loadedScripts[path].handlers[c]) else old(Detached(path, c)))
      ensures action.UnloadAction? ==> (var path := action.path;
        loadedScripts == old(loadedScripts) - {path} && forall c: Channel :: events.table[c] == old(Detached(path, c)))
      ensures action.ClearAction? ==> loadedScripts == map[] && forall c: Channel :: events.table[c] == []
    {
      listing, keys := [], [];
      match action
      case NoAction =>
      case LoadAction(path) =>
        var _ := LoadScript(path, compiler, setup);
      case UnloadAction(path) =>
        var _ := UnloadScript(path);
      case ListAction =>
        listing, keys := ListScripts();
      case ClearAction =>
        ClearScripts();
    }

    /**
      `names` lists the loaded paths' file names, one line per path, in the
      order of `keys`, an enumeration of the dictionary's keys (each once).
    */
    ghost predicate Enumerates(names: seq<string>, keys: seq<string>)
      reads this
    {
      && |names| == |keys|
      && (forall i, j :: 0 <= i < j < |keys| ==> keys[i] != keys[j])
      && (forall p :: p in keys <==> p in loadedScripts)
      && (forall i :: 0 <= i < |names| ==> names[i] == GetFileName(keys[i]))
    }

    /**
      HandleListScripts: the file name of every loaded path, one line each;
      `keys` is the order in which the dictionary was enumerated.
    */
    method ListScripts() returns (names: seq<string>, ghost keys: seq<string>)
      ensures Enumerates(names, keys)
      ensures |names| == |loadedScripts.Keys|
      ensures forall n :: n in names <==> exists p | p in loadedScripts :: GetFileName(p) == n
    {
      var rest := loadedScripts.Keys;
      names, keys := [], [];
      while rest != {}
        invariant rest <= loadedScripts.Keys
        invariant |keys| + |rest| == |loadedScripts.Keys|
        invariant |names| == |keys| && forall i, j :: 0 <= i < j < |keys| ==> keys[i] != keys[j]
        invariant forall p :: p in keys <==> p in loadedScripts.Keys - rest
        invariant forall i :: 0 <= i < |names| ==> names[i] == GetFileName(keys[i])
        decreases rest
      {
        var path :| path in rest;
        assert path !in keys;
        names := names + [GetFileName(path)];
        keys := keys + [path];
        rest := rest - {path};
      }
    }
  }
}
