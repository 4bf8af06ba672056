/**
 * src/utils/commandHandler.js: command-module validation and the registry of
 * commands keyed by `data.name`. Reading the commands directory and
 * `require`-ing a file are outcome parameters: a listing of file names, each
 * with the module its `require` produced or the error it threw.
 */
module Commands {
  import opened Wrappers
  import opened JsText
  import opened Errors

  /** `command.data`: the slash-command builder's name and description. */
  datatype CommandData = CommandData(name: Option<string>, description: Option<string>)

  /** A command module: its `data` (absent when not exported) and whether it exports `execute`. */
  datatype CommandModule = CommandModule(data: Option<CommandData>, hasExecute: bool)

  /** A directory entry and the outcome of `require` on it. */
  datatype CommandFile = CommandFile(fileName: string, loaded: Result<CommandModule, Error>)

  type Registry = map<string, CommandModule>

  const RequiredProperties := ["data", "execute"]
  const StructurePrefix := "Invalid command structure. " + "Missing properties: "
  const DataText := "Invalid command data. " + "Name and description are required."

  /** `!!command[prop]` for the two required properties. */
  predicate Has(command: CommandModule, prop: string)
  {
    if prop == "data" then command.data.Some?
    else if prop == "execute" then command.hasExecute
    else false
  }

  /** `requiredProperties.filter(prop => !command[prop])` */
  function Missing(command: CommandModule, props: seq<string>): (missing: seq<string>)
    ensures forall p :: p in missing <==> p in props && !Has(command, p)
  {
    if |props| == 0 then []
    else (if Has(command, props[0]) then [] else [props[0]]) + Missing(command, props[1..])
  }

  /** `validateCommand(command)`: Ok, or the ValidationError it throws. */
  function ValidateCommand(command: CommandModule): (r: Result<(), Error>)
    ensures r.Ok? <==> command.data.Some? && command.hasExecute
                       && Truthy(command.data.value.name) && Truthy(command.data.value.description)
    ensures r.Err? ==> r.error.ValidationError? && r.error.fields == map[]
  {
    var missing := Missing(command, RequiredProperties);
    if |missing| > 0 then
      assert missing[0] in missing;
      Err(NewValidationError(StructurePrefix + Join(missing, ", "), None))
    else
      assert "data" !in missing && "execute" !in missing;
      if !Truthy(command.data.value.name) || !Truthy(command.data.value.description) then
        Err(NewValidationError(DataText, None))
      else Ok(())
  }

  /** The three structure messages, naming the missing members in the order data, execute. */
  lemma ValidationMessages(command: CommandModule)
    ensures command.data.None? && !command.hasExecute ==>
              ValidateCommand(command).error.message == StructurePrefix + "data, execute"
    ensures command.data.None? && command.hasExecute ==>
              ValidateCommand(command).error.message == StructurePrefix + "data"
    ensures command.data.Some? && !command.hasExecute ==>
              ValidateCommand(command).error.message == StructurePrefix + "execute"
    ensures command.data.Some? && command.hasExecute && ValidateCommand(command).Err? ==>
              ValidateCommand(command).error.message == DataText
  {
    var props := RequiredProperties;
    assert props[0] == "data" && props[1..] == ["execute"] && props[1..][1..] == [];
    var tail := Missing(command, props[1..]);
    assert tail == (if command.hasExecute then [] else ["execute"]) + Missing(command, []);
    assert Missing(command, props) == (if command.data.Some? then [] else ["data"]) + tail;
    if command.data.None? && !command.hasExecute {
      assert Missing(command, props) == ["data", "execute"];
      assert Join(["data", "execute"], ", ") == "data, execute";
    }
  }

  /** The name a valid module registers under. */
  function Key(command: CommandModule): string
    requires ValidateCommand(command).Ok?
  {
    command.data.value.name.value
  }

  /** One iteration of the loading loop: a valid '.js' module is set under its name; anything else is skipped. */
  function Register(reg: Registry, file: CommandFile): Registry
  {
    if !EndsWith(file.fileName, ".js") then reg
    else match file.loaded
      case Err(_) => reg
      case Ok(command) =>
        if ValidateCommand(command).Ok? then reg[Key(command) := command] else reg
  }

  /** The registry after loading `files` in order on top of `reg`. */
  function Loaded(reg: Registry, files: seq<CommandFile>): (r: Registry)
    ensures reg.Keys <= r.Keys
    ensures forall k :: k in r && k !in reg ==> exists i :: 0 <= i < |files| && Accepted(files[i]) && Key(files[i].loaded.value) == k
    decreases |files|
  {
    if |files| == 0 then reg
    else Register(Loaded(reg, files[..|files| - 1]), files[|files| - 1])
  }

  /** A registry entry is a valid module stored under its own name. */
  predicate WellKeyed(reg: Registry)
  {
    forall k :: k in reg ==> ValidateCommand(reg[k]).Ok? && Key(reg[k]) == k
  }

  /** Whether a file's module gets registered at all. */
  predicate Accepted(file: CommandFile)
  {
    EndsWith(file.fileName, ".js") && file.loaded.Ok? && ValidateCommand(file.loaded.value).Ok?
  }

  datatype ReloadStep = ReloadStep(result: Result<(), Error>, registry: Registry)

  /**
   * `reloadCommand(name)`: an unknown name throws with nothing changed; so
   * does a command path that `require.resolve` cannot resolve (`resolved`),
   * since that happens before the delete. Otherwise the entry is deleted
   * first, and only a module that loads and validates is set again, under
   * its own `data.name`.
   */
  function ReloadOutcome(reg: Registry, name: string, resolved: Result<(), Error>,
                         reloaded: Result<CommandModule, Error>): (r: ReloadStep)
    ensures name !in reg || resolved.Err? ==> r.registry == reg && r.result.Err?
    ensures r.result.Ok? <==> name in reg && resolved.Ok? && reloaded.Ok? && ValidateCommand(reloaded.value).Ok?
    ensures r.result.Ok? ==> r.registry == (reg - {name})[Key(reloaded.value) := reloaded.value]
    ensures r.result.Err? && name in reg && resolved.Ok? ==> r.registry == reg - {name}
    ensures WellKeyed(reg) ==> WellKeyed(r.registry)
  {
    if name !in reg then ReloadStep(Err(PlainError("Command not found: " + name)), reg)
    else if resolved.Err? then ReloadStep(Err(resolved.error), reg)
    else
      var removed := reg - {name};
      match reloaded
      case Err(e) => ReloadStep(Err(e), removed)
      case Ok(command) =>
        var v := ValidateCommand(command);
        if v.Err? then ReloadStep(Err(v.error), removed)
        else ReloadStep(Ok(()), removed[Key(command) := command])
  }

  /** What `handleInteraction` does with an interaction. */
  datatype Dispatch = Ignored | Unknown | Ran(result: Result<(), Error>)

  class CommandHandler {
    var commands: Registry

    constructor ()
      ensures commands == map[]
    {
      commands := map[];
    }

    /**
     * `loadCommands()`: a failing directory read is rethrown with the registry
     * untouched; otherwise every file is tried in listing order.
     */
    method LoadCommands(listing: Result<seq<CommandFile>, Error>) returns (r: Result<(), Error>)
      modifies this
      ensures listing.Err? ==> r == Err(listing.error) && commands == old(commands)
      ensures listing.Ok? ==> r == Ok(()) && commands == Loaded(old(commands), listing.value)
    {
      if listing.Err? {
        return Err(listing.error);
      }
      var files := listing.value;
      var i := 0;
      while i < |files|
        invariant 0 <= i <= |files|
        invariant commands == Loaded(old(commands), files[..i])
      {
        var file := files[i];
        assert files[..i + 1][..i] == files[..i];
        if EndsWith(file.fileName, ".js") {
          match file.loaded {
            case Ok(command) =>
              var v := ValidateCommand(command);
              if v.Ok? {
                commands := commands[command.data.value.name.value := command];
              }
            case Err(_) =>
          }
        }
        i := i + 1;
      }
      assert files[..|files|] == files;
      return Ok(());
    }

    /** `getCommand(name)` */
    function GetCommand(name: string): (r: Option<CommandModule>)
      reads this
      ensures r.Some? <==> name in commands
      ensures r.Some? ==> r.value == commands[name]
    {
      if name in commands then Some(commands[name]) else None
    }

    /**
     * `handleInteraction(interaction)`: `run` is what the command's `execute`
     * does, rethrown unchanged.
     */
    function HandleInteraction(isChatInput: bool, commandName: string, run: Result<(), Error>): (d: Dispatch)
      reads this
      ensures d.Ran? <==> isChatInput && commandName in commands
      ensures d.Ran? ==> d.result == run
      ensures d == Unknown <==> isChatInput && commandName !in commands
    {
      if !isChatInput then Ignored
      else if commandName !in commands then Unknown
      else Ran(run)
    }

    /**
     * `reloadCommand(name)`; `resolved` is whether `require.resolve` finds the
     * command file, `reloaded` what re-requiring it gives.
     */
    method ReloadCommand(name: string, resolved: Result<(), Error>, reloaded: Result<CommandModule, Error>)
      returns (r: Result<(), Error>)
      modifies this
      ensures ReloadStep(r, commands) == ReloadOutcome(old(commands), name, resolved, reloaded)
    {
      var command := GetCommand(name);
      if command.None? {
        return Err(PlainError("Command not found: " + name));
      }
      if resolved.Err? {
        return Err(resolved.error);
      }
      commands := commands - {name};
      if reloaded.Err? {
        return Err(reloaded.error);
      }
      var newCommand := reloaded.value;
      var v := ValidateCommand(newCommand);
      if v.Err? {
        return v;
      }
      commands := commands[newCommand.data.value.name.value := newCommand];
      return Ok(());
    }
  }

  // ---------------------------------------------------------------- properties

  /** Loading keeps the registry well keyed. */
  lemma {:induction false} LoadedWellKeyed(reg: Registry, files: seq<CommandFile>)
    requires WellKeyed(reg)
    ensures WellKeyed(Loaded(reg, files))
    decreases |files|
  {
    if |files| > 0 {
      LoadedWellKeyed(reg, files[..|files| - 1]);
    }
  }

  /** Every loaded name was already registered or comes from an accepted file of that name. */
  lemma {:induction false} LoadedNamesFromFiles(reg: Registry, files: seq<CommandFile>, k: string)
    requires k in Loaded(reg, files)
    ensures k in reg || exists i :: 0 <= i < |files| && Accepted(files[i]) && Key(files[i].loaded.value) == k
    decreases |files|
  {
    if |files| > 0 {
      var front := files[..|files| - 1];
      var last := files[|files| - 1];
      if Accepted(last) && Key(last.loaded.value) == k {
        assert Accepted(files[|files| - 1]);
      } else {
        assert k in Loaded(reg, front);
        LoadedNamesFromFiles(reg, front, k);
        if k !in reg {
          var i :| 0 <= i < |front| && Accepted(front[i]) && Key(front[i].loaded.value) == k;
          assert files[i] == front[i];
        }
      }
    }
  }

  /** A file that is not registered leaves the result as if it were not listed: one bad file never stops the rest. */
  lemma {:induction false} SkippedFileIsHarmless(reg: Registry, a: seq<CommandFile>, bad: CommandFile, b: seq<CommandFile>)
    requires !Accepted(bad)
    ensures Loaded(reg, a + [bad] + b) == Loaded(reg, a + b)
    decreases |b|
  {
    if |b| == 0 {
      assert (a + [bad] + b)[..|a + [bad] + b| - 1] == a;
      assert a + b == a;
    } else {
      var front := b[..|b| - 1];
      SkippedFileIsHarmless(reg, a, bad, front);
      assert (a + [bad] + b)[..|a + [bad] + b| - 1] == a + [bad] + front;
      assert (a + b)[..|a + b| - 1] == a + front;
    }
  }

  /** The last accepted file with a given name supplies that name's entry. */
  lemma {:induction false} LastFileWins(reg: Registry, a: seq<CommandFile>, f: CommandFile, b: seq<CommandFile>)
    requires Accepted(f)
    requires forall i :: 0 <= i < |b| ==> !(Accepted(b[i]) && Key(b[i].loaded.value) == Key(f.loaded.value))
    ensures Key(f.loaded.value) in Loaded(reg, a + [f] + b)
    ensures Loaded(reg, a + [f] + b)[Key(f.loaded.value)] == f.loaded.value
    decreases |b|
  {
    if |b| == 0 {
      assert (a + [f] + b)[..|a + [f] + b| - 1] == a;
    } else {
      var front := b[..|b| - 1];
      LastFileWins(reg, a, f, front);
      assert (a + [f] + b)[..|a + [f] + b| - 1] == a + [f] + front;
      assert b[|b| - 1] == (a + [f] + b)[|a + [f] + b| - 1];
    }
  }

  /** A name that is not a '.js' file name is never loaded, whatever its module. */
  lemma OnlyScriptsLoad(reg: Registry, file: CommandFile)
    requires !EndsWith(file.fileName, ".js")
    ensures Register(reg, file) == reg
  {
  }

  /** Reloading an unknown name throws and leaves the registry exactly as it was. */
  lemma UnknownReloadKeepsRegistry(reg: Registry, name: string, resolved: Result<(), Error>,
                                   reloaded: Result<CommandModule, Error>)
    requires name !in reg
    ensures ReloadOutcome(reg, name, resolved, reloaded).result.Err?
    ensures ReloadOutcome(reg, name, resolved, reloaded).registry == reg
  {
  }

  /** A command file that can no longer be resolved throws before the delete: the registry is unchanged. */
  lemma UnresolvedReloadKeepsRegistry(reg: Registry, name: string, e: Error, reloaded: Result<CommandModule, Error>)
    requires name in reg
    ensures ReloadOutcome(reg, name, Err(e), reloaded) == ReloadStep(Err(e), reg)
  {
  }

  /**
   * A reload whose file resolves but whose module fails to load or validate
   * throws, and the command it replaced is gone: the delete happens before
   * the new module is checked.
   */
  lemma FailedReloadLosesCommand(reg: Registry, name: string, reloaded: Result<CommandModule, Error>)
    requires name in reg
    requires reloaded.Err? || ValidateCommand(reloaded.value).Err?
    ensures ReloadOutcome(reg, name, Ok(()), reloaded).result.Err?
    ensures ReloadOutcome(reg, name, Ok(()), reloaded).registry == reg - {name}
    ensures name !in ReloadOutcome(reg, name, Ok(()), reloaded).registry
  {
  }

  /** A successful reload keeps the registry well keyed and every other entry, and installs the new module. */
  lemma ReloadKeepsWellKeyed(reg: Registry, name: string, resolved: Result<(), Error>,
                             reloaded: Result<CommandModule, Error>)
    requires WellKeyed(reg)
    ensures WellKeyed(ReloadOutcome(reg, name, resolved, reloaded).registry)
    ensures ReloadOutcome(reg, name, resolved, reloaded).result.Ok? ==>
              reloaded.Ok? && ReloadOutcome(reg, name, resolved, reloaded).registry[Key(reloaded.value)] == reloaded.value
    ensures forall k :: k in reg && k != name && (reloaded.Ok? && ValidateCommand(reloaded.value).Ok? ==> k != Key(reloaded.value)) ==>
              k in ReloadOutcome(reg, name, resolved, reloaded).registry && ReloadOutcome(reg, name, resolved, reloaded).registry[k] == reg[k]
  {
  }
}
