# DockerWizard build engine, modelled in Dafny

DockerWizard builds a Docker image from a YAML build file. The build file names:

- the image tag;
- an optional library directory;
- a Dockerfile and the files to copy next to it;
- the build steps.

Each build step runs a named command from a registry. The registry holds the builtin commands (copy, execute-system-command, set-variable, set-secret, set-variables, git-clone, execute-groovy, execute-python, create-container, run-build-tool) and any custom Python command classes loaded from a commands file.

The builder does the following, in order:

1. Copies the Dockerfile and the files into a temporary build directory.
2. Loads the build's own custom commands.
3. Changes into the build directory.
4. Runs the steps, builds the image, and runs the post-build steps.
5. Tears down the build context, changes back, and tries to remove the build directory. An OSError from the removal is ignored, so the directory may remain.

This project models that engine, one Dafny module per source file:

| module | source file |
|---|---|
| `Workdir` | `workdir.py` |
| `Commands` | `commands.py` |
| `Models` | `models.py` |
| `BuildParser` | `buildparser.py` |
| `Context` | `context.py` |
| `Builtins` | `builtincommands.py` |
| `Docker` | `docker.py` |
| `CustomCommands` | `customcommands.py` |
| `System` | `system.py` |
| `Builder` | `builder.py` |

Four support modules sit under them:

- `Errors`: the exception kinds.
- `Text`: ASCII case, split, join, line splitting and integer formatting.
- `Values`: the values a YAML load produces, and Python's `in`, indexing and iteration on them.
- `Process`: execution results, and the host as oracles.

Where the source mutates objects, the model is a class whose methods are proved against a specification function of the old state. These classes are:

- the directory stack;
- the command registry;
- `BuildFileObject` and `DockerBuild`;
- the build context and its slot;
- the environment;
- the module search path;
- the initialisation registry;
- the `Builder`.

The properties themselves are lemmas about those functions. Dicts of the build file are ordered association lists, so that key order is kept.

The builder's logging is modelled only where it reports what the build did to the outside world. This is an ordered trace of events:

- files copied;
- a step started, acted or failed;
- the image built or failed;
- the removal of the build directory attempted.

The main results about a whole build are:

- `Builder.SuccessfulBuild`: a build that returns `True` copies the Dockerfile and then every file, in order. It then runs the main steps, builds the image with the configured tag, and runs the post-build steps, with no failure in either phase. Every main step and then every post-build step is announced once, in declared order, numbered from 1. Finally it attempts the removal of the build directory and returns to the directory it started in.
- `Builder.FailedBuild`: a build whose step or image build fails still attempts the removal of the build directory and returns to the directory it started in. The failure is the last event before the clean-up.
- `Builder.CleanupUnlessEscaped`: any exception other than `BuildFailedError` escapes without the clean-up.

The `DockerBuild` that `build_parser.parse` returns has no `custom_commands` or `post_steps` attribute (`models.py:223-233`). So `Builder._setup_custom_commands` raises `AttributeError` on such a build, as the source reads it. The model keeps both attributes optional: an absent one raises as in Python, and a present one is used.

## Model

| member | source | states |
|---|---|---|
| Workdir.DirectoryStack.constructor | dockerwizard/workdir.py:9-10 | a fresh stack is at the given directory with no stored previous directories |
| Workdir.DirectoryStack.ChangeDirectory | dockerwizard/workdir.py:17-26 | the current directory becomes the target; the old one is pushed unless `not_store` is set |
| Workdir.DirectoryStack.ChangeBack | dockerwizard/workdir.py:29-35 | pops the last stored directory and makes it current; with nothing stored, nothing changes |
| Workdir.DirectoryStack.GetWorkingDirectory | dockerwizard/workdir.py:38-43 | returns the current directory |
| Workdir.StoredChangeUndone | dockerwizard/workdir.py:17-35 | a stored change followed by change_back restores the exact stack |
| Workdir.TransientChangeNotUndone | dockerwizard/workdir.py:17-35 | a `not_store` change leaves the stack alone, so change_back returns to what was stored before, not to the directory left |
| Workdir.ChangeAllPushes | dockerwizard/workdir.py:17-26 | n stored changes push n directories on top of the old stack and end in the last target |
| Workdir.ChangesUnwind | dockerwizard/workdir.py:17-35 | n stored changes are undone by exactly n change_backs |
| Workdir.BackTimesSplit | dockerwizard/workdir.py:29-35 | n+1 change_backs are n change_backs then one more |
| Workdir.ChangeTwiceAndBack | dockerwizard/workdir.py:17-35 | two stored changes and two change_backs leave the directory state as it was |
| Commands.CommandRegistry.constructor | dockerwizard/commands.py:38-39 | a new registry is empty |
| Commands.CommandRegistry.Register | dockerwizard/commands.py:41-48 | the name now maps to the command; every other name keeps its entry (later registration wins) |
| Commands.CommandRegistry.GetCommand | dockerwizard/commands.py:50-61 | returns the registered command exactly when the name is registered, else raises ValueError |
| Commands.NewCommand | dockerwizard/commands.py:72-86 | constructing a command registers it under its name |
| Commands.ValidateNumArgs | dockerwizard/commands.py:88-119 | the error is raised exactly when there are too few arguments, or (at-least mode with a maximum) too many |
| Commands.Normalise | dockerwizard/commands.py:138-144 | a CommandError passes unchanged; anything else becomes a CommandError naming the unknown error |
| Commands.Execute | dockerwizard/commands.py:130-144 | a count violation is reported before the command runs; otherwise execute fails exactly when the command's body does, always as a CommandError |
| Commands.ViolationIgnoresHook | dockerwizard/commands.py:130-137 | with a wrong argument count the command's body has no influence on the outcome |
| Commands.DefaultModeIgnoresMax | dockerwizard/commands.py:107-119 | without at-least mode only the exact minimum matters, not the maximum |
| Commands.MaxSuffixOnlyWhenSet | dockerwizard/commands.py:88-97 | the " and maximum" part of the message appears only when a maximum is set |
| Values.Lookup | dockerwizard/models.py:21-22 | `get_property` finds the value stored under the key, or None when the key is absent |
| Values.Contains | dockerwizard/buildparser.py:53-54 | `in` on a mapping tests its keys; on a non-iterable it raises |
| Values.Index | dockerwizard/customcommands.py:45-46 | indexing a mapping yields the stored value or raises KeyError |
| Values.Iterate | dockerwizard/builder.py:83 | iterating a list yields its items; a value that cannot be iterated raises TypeError |
| Models.Raise | dockerwizard/models.py:92-99 | the error handler raises a BuildConfigurationError exactly when it is `throw_property_error` |
| Models.SetPropertyRules | dockerwizard/models.py:59-71 | an unknown attribute raises ValueError; None leaves the attribute alone; otherwise only that attribute changes |
| Models.RequiredMissing | dockerwizard/models.py:104-105 | a required property that is missing or falsy is reported through the handler, and nothing is set |
| Models.ValidationMessage | dockerwizard/models.py:107-110 | a validator's message is reported through the handler, and nothing is set |
| Models.PlainSetter | dockerwizard/models.py:101-112 | a setter with no validation sets the value when present and keeps the default when absent |
| Models.ApplySettersAppend | dockerwizard/models.py:24-32 | setters run in order and the first error stops the rest |
| Models.ApplySettersKeepsKeys | dockerwizard/models.py:24-32 | applying setters never adds or removes an attribute |
| Models.BuildFileObject.constructor | dockerwizard/models.py:39-48 | a new object holds exactly the given default attributes |
| Models.BuildFileObject.SetProperty | dockerwizard/models.py:59-71 | the object's attributes and the error are those of `set_property` on the old attributes |
| Models.BuildFileObject.ProcessSetter | dockerwizard/models.py:101-112 | one setter's effect on the object is that of `process` |
| Models.SetProperties | dockerwizard/models.py:24-32 | the target's attributes after `set_properties` are those of running the setters in order |
| Models.InitialiseObject | dockerwizard/models.py:131-139 | initialising an object from a node applies its setters; a node that is not build-file data raises AttributeError |
| Models.NewObject | dockerwizard/models.py:151-203 | a fresh File or BuildStep initialised from one list item |
| Models.AttrsOf | dockerwizard/models.py:183 | the attributes of a list of objects, item by item |
| Models.InitialiseList | dockerwizard/models.py:169-220 | the files/steps list initialises to one object per item, or fails with the list's error |
| Models.InitialiseEntries | dockerwizard/models.py:183 | one fresh object per entry, in order, or the first entry's error |
| Models.InitialiseEach | dockerwizard/models.py:183 | the loop over the entries agrees with the element-wise specification |
| Models.InitAllElementwise | dockerwizard/models.py:183 | the comprehension succeeds exactly when every item does, and then item i is the object made from entry i |
| Models.InitAllFirstError | dockerwizard/models.py:183 | a failing comprehension reports the error of the first failing item, with all before it succeeding |
| Models.InitAllStart | dockerwizard/models.py:183 | the loop's starting state matches the specification |
| Models.InitAllEnd | dockerwizard/models.py:183 | the loop's final state is the whole result |
| Models.InitAllStep | dockerwizard/models.py:183 | one loop step either stops at the item's error or appends its object |
| Models.InitAllUnfold | dockerwizard/models.py:183 | the comprehension unfolds one item at a time |
| Models.FileNeedsPath | dockerwizard/models.py:160-166 | a file without `path` is rejected with "path is a required property" |
| Models.FileStoresFlags | dockerwizard/models.py:155-166 | a file with path and flag keeps both |
| Models.FileDefaultsRelative | dockerwizard/models.py:155-166 | a file without `relative_to_library` keeps the default |
| Models.StepNeedsArguments | dockerwizard/models.py:196-203 | a step with an empty argument list is rejected |
| Models.StepNameOptional | dockerwizard/models.py:190-203 | a step without a name keeps the default name and takes its command and arguments |
| Models.ListKeyRequired | dockerwizard/models.py:177-183 | a files/steps list that is None is an error; an empty list gives no objects |
| Models.DockerBuild.constructor | dockerwizard/models.py:227-233 | a new build holds the defaults: empty image, library at the working directory, a default Dockerfile, no files, no steps |
| Models.DockerBuild.Initialise | dockerwizard/models.py:131-139 | the build's state and error after initialising equal the initialisation specification |
| Models.DockerBuild.InitialiseContents | dockerwizard/models.py:253-266 | the rest of `do_initialise` as a state change: the Dockerfile check, the Dockerfile, then files and steps; the new state and error are those of the initialisation specification |
| Models.DockerBuild.SetAttributes | dockerwizard/models.py:246-251 | image and library are set by their setters and nothing else changes |
| Models.DockerBuild.InitialiseDockerfile | dockerwizard/models.py:256 | the Dockerfile object is initialised from its node and nothing else changes |
| Models.DockerBuild.InitialiseLists | dockerwizard/models.py:258-266 | files are initialised before steps, and a failure stops there |
| Models.DockerBuild.InitialiseSteps | dockerwizard/models.py:261-266 | the steps list is replaced by the initialised steps or left alone on error |
| Models.ImageCheckedFirst | dockerwizard/models.py:246-251 | a build without `image` fails before anything is set |
| Models.LibraryCheckedSecond | dockerwizard/models.py:238-251 | a library that is not a directory fails after the image is set |
| Models.DockerfileCheckedThird | dockerwizard/models.py:253-254 | a build without `dockerfile` fails before the Dockerfile, files and steps are touched |
| Models.FilesBeforeSteps | dockerwizard/models.py:258-266 | a missing files list fails before the steps are touched |
| Models.InitialiseSucceeds | dockerwizard/models.py:258-266 | after a successful initialisation, file i and step i are the objects made from the i-th entries |
| Models.AbsentLibraryRejectedAsWritten | dockerwizard/models.py:107-110 | as written, a build without `library` validates None and fails with TypeError |
| Models.AbsentLibraryKeepsDefault | dockerwizard/models.py:101-112 | corrected: an absent library keeps its default and raises nothing |
| Models.ProcessAgreesWhenPresent | dockerwizard/models.py:101-112 | the correction changes nothing when the property is present |
| BuildParser.Convert | dockerwizard/buildparser.py:24-40 | conversion keeps every key in order and converts each value |
| BuildParser.Unconvert | dockerwizard/buildparser.py:24-40 | the inverse of the conversion yields a raw mapping |
| BuildParser.ConvertRoundTrip | dockerwizard/buildparser.py:24-40 | converting a loaded mapping and converting back gives the mapping |
| BuildParser.ConvertFieldRoundTrip | dockerwizard/buildparser.py:32-38 | the same round trip for one value |
| BuildParser.ConvertedHasNoRawMappings | dockerwizard/buildparser.py:32-38 | no value, and no list item, of a converted node is a raw mapping |
| BuildParser.LookupConverted | dockerwizard/buildparser.py:24-40 | looking up a key after converting is converting what the lookup found |
| BuildParser.LookupMapped | dockerwizard/buildparser.py:24-40 | the same, for any element-wise converted list of entries |
| BuildParser.BuildNode | dockerwizard/buildparser.py:47-60 | a missing file raises "does not exist"; otherwise the node is found exactly when `build` holds a mapping |
| BuildParser.MissingBuildTag | dockerwizard/buildparser.py:53-54 | a document without `build` is rejected with the build-tag message |
| BuildParser.EmptyBuildSection | dockerwizard/buildparser.py:56 | a `build:` with nothing under it fails in the conversion with AttributeError |
| BuildParser.EmptyDocument | dockerwizard/buildparser.py:53 | an empty file makes the key test raise TypeError |
| BuildParser.ParseInitialisesConverted | dockerwizard/buildparser.py:56-58 | a well-formed document yields the converted `build` node, free of raw mappings |
| BuildParser.Parse | dockerwizard/buildparser.py:47-60 | parse returns a fresh valid build holding the initialised attributes, or the error and no build |
| Context.BuildContext.constructor | dockerwizard/context.py:19-21 | a new context has no config and no current step |
| Context.BuildContext.SetConfig | dockerwizard/context.py:30-35 | sets the config and keeps the current step |
| Context.BuildContext.SetCurrentStep | dockerwizard/context.py:44-49 | sets the current step and keeps the config |
| Context.ContextSlot.constructor | dockerwizard/context.py:17 | the slot starts empty |
| Context.ContextSlot.Get | dockerwizard/context.py:51-60 | returns the context exactly when one is initialised, else raises BuildContextError |
| Context.ContextSlot.Initialise | dockerwizard/context.py:63-69 | installs a fresh empty context |
| Context.ContextSlot.Teardown | dockerwizard/context.py:72-79 | empties the slot |
| Context.SetThenGet | dockerwizard/context.py:23-49 | the two properties are independent: setting both reads back both |
| Context.TeardownTwice | dockerwizard/context.py:51-79 | teardown is idempotent, and afterwards the context cannot be obtained |
| Context.InitialiseTwice | dockerwizard/context.py:63-69 | a second initialise replaces the first context with a new empty one |
| Builtins.HandleOutput | dockerwizard/builtincommands.py:71-95 | fails exactly when the execution is unhealthy, with the tagged stderr and exit-code message |
| Builtins.HandleOutputLines | dockerwizard/builtincommands.py:80-95 | on success, reports the joined command line and the stdout lines, or the stderr lines with a warning when stdout is empty |
| Builtins.CopyHook | dockerwizard/builtincommands.py:40-54 | with two string arguments copy copies a tree exactly when the source is a directory, else a file; a source that is not a string, number or boolean raises the `stat` TypeError and copies nothing; no variable changes |
| Builtins.ResolveBash | dockerwizard/builtincommands.py:105-123 | on Windows a leading `bash` is replaced by the configured bash path or kept; other arguments are untouched |
| Builtins.BashResolution | dockerwizard/builtincommands.py:105-123 | resolution keeps the length and the tail, and changes nothing off Windows or without `bash` |
| Builtins.ShellHook | dockerwizard/builtincommands.py:105-133 | a string `arguments` runs as one command line, as it is, and fails exactly when that process is unhealthy; for a list, with every item a string one command line runs, the items with a leading `bash` resolved; any non-string item makes the join raise TypeError and nothing runs; no variable changes |
| Builtins.ExecuteSystemCommand | dockerwizard/builtincommands.py:125-133 | the system command's outcome, with the argument array resolved in place, is that of `ShellHook` |
| Builtins.ShellStringRunsWhole | dockerwizard/process.py:34-41 | `execute-shell` on a non-empty string `arguments` passes the count check and runs that string as one command line, not its characters |
| Builtins.Environ.constructor | dockerwizard/builtincommands.py:155-164 | the environment holds the given variables |
| Builtins.Environ.SetVariable | dockerwizard/builtincommands.py:155-164 | when `os.environ` accepts the pair exactly that variable is set and the others kept; otherwise `os.environ`'s error is returned and nothing changes |
| Builtins.PutenvError | dockerwizard/builtincommands.py:164 | what `os.environ[name] = value` raises: `embedded null byte` for a NUL in either string, then `illegal environment variable name` for an `=` in the name, then OSError EINVAL for an empty name; nothing exactly for a valid entry |
| Builtins.Environ.SetVariables | dockerwizard/builtincommands.py:188-202 | pairs are set in order until the first non-string (AttributeError on `split`), malformed pair or pair `os.environ` rejects, which is reported; the new variables are those of the specification |
| Builtins.SetVariableHook | dockerwizard/builtincommands.py:155-164 | with two strings `os.environ` accepts, the first is set to the second and nothing else changes; two strings it rejects raise its error; a non-string name or value raises `str expected, not <type>`; an error changes nothing |
| Builtins.PairAccepted | dockerwizard/builtincommands.py:190-198 | a pair is accepted exactly when it has one `=` and a space-free name, and then it is name `=` value |
| Builtins.SplitParts | dockerwizard/builtincommands.py:190 | `name=value` splits into name and value |
| Builtins.SetAllAppend | dockerwizard/builtincommands.py:188-202 | setting a+b is setting a then b, unless a fails |
| Builtins.SetAllKeepsEarlierPairs | dockerwizard/builtincommands.py:188-202 | a malformed pair stops the loop, keeping the pairs before it set and none after |
| Builtins.SetAllOnePair | dockerwizard/builtincommands.py:188-202 | a single well-formed pair sets exactly that variable when `os.environ` accepts it, and otherwise raises `os.environ`'s error (for `=v`, the empty name's OSError) and sets nothing |
| Builtins.SetVariablesStopsAtNonString | dockerwizard/builtincommands.py:188-202 | after any pair `os.environ` accepts, a non-string argument keeps that variable set and raises AttributeError for the missing `split` |
| Builtins.GitCloneArgs | dockerwizard/builtincommands.py:217-226 | `git clone repo`, with the target appended exactly when two arguments are given and the second is not None |
| Builtins.GitCloneError | dockerwizard/builtincommands.py:230-236 | fails exactly on a non-zero exit, quoting stderr or, when it is empty, stdout |
| Builtins.GitCloneNullTarget | dockerwizard/builtincommands.py:217-226 | a None target is the same as no target: `git clone repo` runs |
| Builtins.GitCloneNonStringTarget | dockerwizard/builtincommands.py:217-226 | a target that is neither a string nor None makes the join raise TypeError at item 3, and nothing runs |
| Builtins.VerifyScriptPassed | dockerwizard/builtincommands.py:263-273 | succeeds exactly when some argument, all before it strings, names a script with the interpreter's extension; with only strings a failure is the needs-a-script CommandError |
| Builtins.Capitalised | dockerwizard/builtincommands.py:275-276 | the interpreter's name with its first letter upper-cased |
| Builtins.PythonScriptAccepted | dockerwizard/builtincommands.py:278-285 | a `.py` script argument makes execute-python run `python` with the arguments |
| Builtins.ScriptNeedsStem | dockerwizard/builtincommands.py:263-273 | a bare extension, or the interpreter name, is not a script |
| Builtins.ScriptNonStringArgument | dockerwizard/builtincommands.py:263-285 | a non-string before the script makes `re.match` raise TypeError; one after the script makes the join raise TypeError at item 2 |
| Builtins.CreateContainerError | dockerwizard/builtincommands.py:307-317 | container creation fails exactly when the docker run is unhealthy |
| Builtins.CreateContainerHook | dockerwizard/builtincommands.py:307-317 | create-container runs `docker run -d --name <name>`, the extra arguments, then the image; a non-string argument makes the join raise TypeError and nothing runs; no variable changes |
| Builtins.CreateContainerFailure | dockerwizard/builtincommands.py:307-317 | an unhealthy run reports the name, image, stderr and exit code |
| Builtins.ContainerArgvStrings | dockerwizard/builtincommands.py:307-317 | with string arguments the command line is exactly `create_docker_container`'s, and the join accepts it |
| Builtins.CreateContainerRuns | dockerwizard/builtincommands.py:307-317 | with string arguments create-container runs `create_docker_container`'s command line once |
| Builtins.ValidateNamed | dockerwizard/builtincommands.py:349-358 | passes exactly when every required named argument is truthy, and otherwise names a missing one |
| Builtins.ArgStrings | dockerwizard/process.py:40-41 | a list command line is joined with spaces; the join succeeds exactly when every item is a string, yielding those strings, and otherwise raises TypeError naming the first non-string item's position and type |
| Builtins.StrValues | dockerwizard/builtincommands.py:360-377 | strings as list values, item by item |
| Builtins.StrValuesRoundTrip | dockerwizard/builtincommands.py:360-377 | reading string list values back gives the strings |
| Builtins.MavenCommandLine | dockerwizard/builtincommands.py:360-370 | maven runs `mvn`, then the arguments, then the goals |
| Builtins.MissingGoals | dockerwizard/builtincommands.py:349-358 | maven without goals is rejected with the named-argument message |
| Builtins.NpmCommandLine | dockerwizard/builtincommands.py:372-377 | npm runs `npm` followed by the arguments |
| Builtins.UnknownToolIgnoresContext | dockerwizard/builtincommands.py:379-383 | an unsupported tool is rejected before the named arguments are read: a list or mapping raises the `unhashable type` TypeError, anything else the not-supported CommandError; nothing runs |
| Builtins.Dispatch | dockerwizard/commands.py:130-144 | a command's outcome on the step's `arguments` value and the values iterating it yields: a count violation does nothing; any error is a CommandError |
| Builtins.DispatchIsExecute | dockerwizard/commands.py:130-144 | dispatching is `execute` around the command's body: the count check first; with a valid count the body's effects stay and its error, as a CommandError, is the result; a body error is never lost |
| Builtins.DispatchSetVariablesNonString | dockerwizard/commands.py:130-144 | set-variables with an accepted pair and then a non-string keeps the pair set and reports the AttributeError as an unknown-error CommandError |
| Builtins.BuiltinNamesDistinct | dockerwizard/builtincommands.py:404-417 | the ten builtins have ten distinct names |
| Builtins.RegisterBuiltins | dockerwizard/builtincommands.py:404-417 | every builtin is registered under its name; other names keep their entries |
| Docker.BuildImageArgs | dockerwizard/docker.py:12-19 | the command line is `docker build --tag <tag> <workdir>` |
| Docker.BuildDockerImage | dockerwizard/docker.py:12-19 | build_docker_image returns the result of running that command line |
| Docker.CreateContainerArgs | dockerwizard/docker.py:21-33 | the loop builds `docker run -d --name <name>`, the extra arguments in order, then the tag |
| Docker.ContainerArgsLayout | dockerwizard/docker.py:21-33 | in that command line, the name, extra arguments and tag sit at their positions |
| Docker.CreateDockerContainer | dockerwizard/docker.py:21-33 | create_docker_container returns the result of running that command line |
| CustomCommands.SplitPoint | dockerwizard/customcommands.py:20-21 | the split point of `os.path.split`: after the last `/` |
| CustomCommands.RStripSlashes | dockerwizard/customcommands.py:20 | the directory part without trailing slashes |
| CustomCommands.BasenameTail | dockerwizard/customcommands.py:20-21 | the base name holds no `/` and ends the path |
| CustomCommands.DirnameJoin | dockerwizard/customcommands.py:20-21 | directory, `/`, base name rebuild the path |
| CustomCommands.PythonBasename | dockerwizard/customcommands.py:19-22 | a `.py` path has a `.py` base name |
| CustomCommands.ModuleName | dockerwizard/customcommands.py:22 | the module name is the base name up to its first `.py` |
| CustomCommands.SearchPath.constructor | dockerwizard/customcommands.py:25-34 | the search path holds the given entries |
| CustomCommands.SearchPath.InsertFront | dockerwizard/customcommands.py:25-28 | the directory is put first |
| CustomCommands.SearchPath.PopFront | dockerwizard/customcommands.py:32-34 | the first entry is removed and returned |
| CustomCommands.CheckPath | dockerwizard/customcommands.py:19 | a path is accepted exactly when it is an existing `.py` file, else BuildConfigurationError |
| CustomCommands.RejectedPathImportsNothing | dockerwizard/customcommands.py:19-38 | a rejected path leaves the search path alone |
| CustomCommands.ImportSearchesModuleDirectory | dockerwizard/customcommands.py:20-30 | the import runs with the module's directory at the front of the search path, unless already present |
| CustomCommands.SearchPathRestored | dockerwizard/customcommands.py:25-34 | after a successful load, or a failure before the import, the search path is as before |
| CustomCommands.FailedImportKeepsDirectory | dockerwizard/customcommands.py:25-34 | a failed import leaves the inserted directory on the search path |
| CustomCommands.LoadModule | dockerwizard/customcommands.py:13-38 | `_load_module` changes the search path and returns the module as specified |
| CustomCommands.AcceptClass | dockerwizard/customcommands.py:50-58 | a class is registered exactly when it exists and extends AbstractCommand |
| CustomCommands.MissingClassRejected | dockerwizard/customcommands.py:50-58 | a missing class is reported as "does not exist within" the file |
| CustomCommands.ForeignClassRejected | dockerwizard/customcommands.py:50-58 | a class that does not extend AbstractCommand is reported as such |
| CustomCommands.AcceptedClassRegistered | dockerwizard/customcommands.py:41-58 | a valid file and class register the command |
| CustomCommands.MissingKeyFirst | dockerwizard/customcommands.py:45-46 | a command without `file` or `class` raises KeyError before anything is loaded |
| CustomCommands.LoadCustomCommand | dockerwizard/customcommands.py:41-58 | `_load_custom` changes search path and registry as specified |
| CustomCommands.LoadAllAppend | dockerwizard/customcommands.py:71-72 | loading a+b is loading a then b, unless a fails |
| CustomCommands.LoadAllStep | dockerwizard/customcommands.py:71-72 | one loop step either stops at the command's error or continues |
| CustomCommands.NoCommandsKey | dockerwizard/customcommands.py:68 | a file without `commands` loads nothing |
| CustomCommands.EmptyCommandList | dockerwizard/customcommands.py:68-72 | an empty `commands` list loads nothing |
| CustomCommands.LoadCustomFile | dockerwizard/customcommands.py:61-72 | `load_custom` changes search path and registry as specified |
| CustomCommands.LoadEach | dockerwizard/customcommands.py:71-72 | the loop over the commands agrees with loading them in order |
| CustomCommands.AcceptNeverFailsBuild | dockerwizard/customcommands.py:50-58 | accepting a class never raises BuildFailedError |
| CustomCommands.LoadCustomNeverFailsBuild | dockerwizard/customcommands.py:41-58 | loading one command never raises BuildFailedError |
| CustomCommands.LoadAllNeverFailsBuild | dockerwizard/customcommands.py:71-72 | nor does loading a list of them |
| CustomCommands.ChangeAndLoadReturns | dockerwizard/tests/customcommands_test.py:157-164 | a successful change_and_load_custom returns to the starting directory, having loaded the base name from its directory |
| CustomCommands.ChangeAndLoadNeverFailsBuild | dockerwizard/tests/customcommands_test.py:157-164 | change_and_load_custom never raises BuildFailedError |
| CustomCommands.ChangeAndLoadCustom | dockerwizard/tests/customcommands_test.py:157-164 | change into the file's directory, load its base name, change back |
| System.PlatformsExclusive | dockerwizard/system.py:27-48 | at most one of isWindows, isLinux, isMac holds |
| System.PlatformCaseIgnored | dockerwizard/system.py:20-32 | isWindows holds exactly for "windows" in any letter case |
| System.NewInitialisation | dockerwizard/system.py:51-62 | an initialisation stores its OS type's value and its callback |
| System.DockerWizardHome | dockerwizard/system.py:73-85 | succeeds exactly when DOCKER_WIZARD_HOME is set, non-empty and a directory, else SystemError |
| System.ApplicabilityRules | dockerwizard/system.py:64-70 | an initialisation for all systems always applies; others apply exactly to their system |
| System.Initialise | dockerwizard/system.py:64-70 | the callback runs exactly when the initialisation applies to the platform |
| System.InitialisationRegistry.constructor | dockerwizard/system.py:88-90 | the registry starts with the DOCKER_WIZARD_HOME check for all systems |
| System.InitialisationRegistry.Register | dockerwizard/system.py:93-99 | appends the initialisation, keeping the earlier ones |
| System.InitialisationRegistry.InitialiseSystem | dockerwizard/system.py:102-109 | runs the registered initialisations as specified |
| System.RunAllCallsApplicable | dockerwizard/system.py:102-109 | without error, exactly the applicable callbacks run, in order |
| System.RunAllStopsAtError | dockerwizard/system.py:102-109 | on error, a prefix of the applicable callbacks ran |
| System.RunAllErrorIsLast | dockerwizard/system.py:102-109 | the error is that of the last callback run |
| System.RunAllFrom | dockerwizard/system.py:102-109 | one loop step: skip, stop at an error, or continue |
| Text.Lower | dockerwizard/system.py:24 | lower-casing maps each character |
| Text.SplitCount | dockerwizard/builtincommands.py:190 | splitting at c gives one more piece than there are c's |
| Text.SplitPiecesFree | dockerwizard/builtincommands.py:190 | no piece contains the separator |
| Text.JoinSplit | dockerwizard/builtincommands.py:190 | joining the pieces with the separator gives the string back |
| Text.SplitWithout | dockerwizard/builtincommands.py:190 | a string without the separator is one piece |
| Text.SplitLinesEmpty | dockerwizard/builder.py:119 | only the empty string has no lines |
| Text.LinesBreakFree | dockerwizard/builder.py:119 | no line holds a line break |
| Text.IndexOf | dockerwizard/customcommands.py:22 | the first occurrence of a substring, or none |
| Builder.Attr | dockerwizard/builder.py:73-75 | reading an attribute yields it when present, else AttributeError |
| Builder.PathJoinParts | dockerwizard/builder.py:41 | `os.path.join`: an absolute second part wins; otherwise the parts are joined with one `/` |
| Builder.CopySourceRules | dockerwizard/builder.py:39-44 | a file is copied from its path, or from the library joined with its path when relative to the library |
| Builder.CopiesInOrder | dockerwizard/builder.py:48-62 | a successful copy adds one Copied event per file, in order, and changes nothing else |
| Builder.CopyAddsCopies | dockerwizard/builder.py:48-62 | copying only ever adds Copied events |
| Builder.Resolve | dockerwizard/builder.py:78 | a command resolves exactly when it is a registered name; a list or mapping raises TypeError, anything else ValueError |
| Builder.Acts | dockerwizard/builder.py:83 | each action of a command becomes one event, in order |
| Builder.StepAnnounced | dockerwizard/builder.py:78-81 | a resolved step is announced first, with its name or the command's default name |
| Builder.UnknownCommandRejected | dockerwizard/builder.py:84-86 | an unknown command raises BuildConfigurationError naming the step index, and does nothing |
| Builder.UnhashableCommandEscapes | dockerwizard/builder.py:78 | a list or mapping as command raises TypeError, not the configuration error |
| Builder.CommandErrorFailsBuild | dockerwizard/builder.py:87-89 | a failing command logs the step failure last and raises BuildFailedError |
| Builder.StepShape | dockerwizard/builder.py:64-91 | a step only adds step events; it succeeds without failure events; no CommandError escapes it |
| Builder.StepperWellBehaved | dockerwizard/builder.py:64-91 | the step function has that shape for every step |
| Builder.RunStepsShape | dockerwizard/builder.py:93-103 | running steps keeps stored directories and loaded commands, only adds step events, and ends in the build directory |
| Builder.StepsShape | dockerwizard/builder.py:93-103 | the same for the builder's own step function |
| Builder.Announcements | dockerwizard/builder.py:79-81 | one announcement per step: the k-th step is announced with number first+k, its shown name and its phase |
| Builder.StepAnnouncedOnce | dockerwizard/builder.py:73-89 | a step that succeeds announces itself exactly once, with its index, its name or the command's default name, and its phase |
| Builder.StepperWellAnnounced | dockerwizard/builder.py:64-91 | the builder's step function announces, on success, exactly the step it ran and keeps the loaded commands |
| Builder.RunStepsAnnounce | dockerwizard/builder.py:101-102 | a run of steps that succeeds announces each step once, in declared order, numbered from the first index |
| Builder.ImageShape | dockerwizard/builder.py:105-124 | the image build adds one event, ImageBuilt with the tag exactly when `docker build` is healthy |
| Builder.CleanupEscapes | dockerwizard/builder.py:126-133 | an OSError from the clean-up is swallowed; any other escapes |
| Builder.CustomShape | dockerwizard/builder.py:135-141 | loading custom commands adds no event, keeps the environment, returns to the directory, and never fails the build |
| Builder.AfterStepsShape | dockerwizard/builder.py:158-159 | after the main steps: the image event with the build's tag, then only post-build step events with no failure; or, when the build fails, a failure event last |
| Builder.InBuildDirectoryShape | dockerwizard/builder.py:157-159 | main-step events with no failure, the image event with the tag, post-build step events with no failure; or, when the build fails, a failure event last |
| Builder.AfterStepsAnnounce | dockerwizard/builder.py:158-159 | after the main steps the image build announces nothing, and the post-build steps are announced in order from 1 |
| Builder.InBuildDirectoryAnnounce | dockerwizard/builder.py:157-159 | the main steps and then the post-build steps are announced in order, each numbered from 1 |
| Builder.AfterCopyShape | dockerwizard/builder.py:152-159 | after copying: the build directory is entered (stored) and the phases follow |
| Builder.AfterCopyAnnounce | dockerwizard/builder.py:152-159 | after copying, the announcements are the main then post-build steps, named with the commands the custom loading registered |
| Builder.CopyExtends | dockerwizard/builder.py:151 | copying only extends the trace |
| Builder.BodyShape | dockerwizard/builder.py:150-164 | the body only extends the trace; a build failure leaves the build directory stored and a failure event last |
| Builder.BodySucceeds | dockerwizard/builder.py:150-160 | a successful body copied every file in order and is in the build directory; the events after the copies are main-step events, the tagged image, then post-build step events, none a failure |
| Builder.BodyAnnounces | dockerwizard/builder.py:150-160 | after the copies, a successful body announced the main then the post-build steps, each in order from 1 |
| Builder.CopyLength | dockerwizard/builder.py:48-62 | a successful copy adds one event per file: the Dockerfile and each required file |
| Builder.FinishShape | dockerwizard/builder.py:162-170 | an escaping error skips the clean-up; otherwise change_back and one Cleaned event (the removal attempted), last |
| Builder.CleanedAfter | dockerwizard/builder.py:162-170 | appending the clean-up to a successful body keeps its copies, phases and announcements, with the clean-up last |
| Builder.BuildSucceeds | dockerwizard/builder.py:143-172 | for any step function with the step shape and announcements, a build returning True has all the properties of SuccessfulBuild |
| Builder.SuccessfulBuild | dockerwizard/builder.py:143-172 | a build returning True copied every file in order, ran the phases with the tagged image between them, announced every main then post-build step in order from 1, attempted the clean-up last, and is back where it started |
| Builder.FailedBuild | dockerwizard/builder.py:143-172 | a build failing in a step or the image returns False, reports the failure just before the clean-up attempt, and is back where it started |
| Builder.FinishFailed | dockerwizard/builder.py:162-170 | a failed body is finished by returning False after the clean-up |
| Builder.CleanupUnlessEscaped | dockerwizard/builder.py:143-172 | removal of the build directory is attempted exactly once, as the last event, unless an error other than BuildFailedError escapes (an OSError from the removal is swallowed, so the directory may remain) |
| Builder.Builder.constructor | dockerwizard/builder.py:21-29 | a new builder initialises the context with the build as its config |
| Builder.Builder.CopyFile | dockerwizard/builder.py:31-46 | copying one file changes the state as specified |
| Builder.Builder.CopyFiles | dockerwizard/builder.py:48-62 | the Dockerfile, then each file |
| Builder.Builder.CopyEach | dockerwizard/builder.py:59-60 | the loop over the files agrees with the specification |
| Builder.Builder.SetupCustomCommands | dockerwizard/builder.py:135-141 | loads the build's commands file when one is named |
| Builder.Builder.RunStep | dockerwizard/builder.py:73-89 | one step's effect on state and environment, the command receiving the step's `arguments` value as it is |
| Builder.Builder.ExecuteStep | dockerwizard/builder.py:64-91 | a step runs with the context's current step set, which is cleared afterwards |
| Builder.Builder.ExecuteSteps | dockerwizard/builder.py:93-103 | the main or post-build steps run as specified; missing post-build steps raise AttributeError |
| Builder.Builder.ExecuteEach | dockerwizard/builder.py:101-103 | the loop runs steps numbered from 1, returning to the build directory after each |
| Builder.Builder.ExecuteNext | dockerwizard/builder.py:101-103 | one iteration of that loop |
| Builder.Builder.BuildDockerImage | dockerwizard/builder.py:105-124 | the image build's effect as specified |
| Builder.Builder.CleanBuildDirectory | dockerwizard/builder.py:126-133 | records the removal attempt and lets only a non-OSError escape |
| Builder.Builder.RunBody | dockerwizard/builder.py:150-160 | the try block's effect as specified |
| Builder.Builder.RunAfterCopy | dockerwizard/builder.py:152-159 | the try block after copying |
| Builder.Builder.RunInBuildDirectory | dockerwizard/builder.py:157-159 | the steps, image and post-build steps |
| Builder.Builder.RunAfterSteps | dockerwizard/builder.py:158-159 | the image and post-build steps |
| Builder.Builder.Build | dockerwizard/builder.py:143-172 | build() changes the state and returns as the whole-build specification says, and tears the context down |

## Left out

- Logging: the informational messages are not modelled, except what the event trace records.
- YAML loading (`yaml.safe_load`) and opening files: the parser is given the loaded document, or None for a missing file.
- The file system, subprocesses, the platform, imports and the `_execute` bodies of custom command classes are oracles (`Process.Host`, `CustomCommands.Loader`). A failed `os.chdir` is not modelled.
- `os.path` is modelled for POSIX paths only.
- Lower-casing is ASCII only.
- `sys.modules` caching of imported modules is not modelled.
- A custom command class that raises while it is constructed is not modelled.
- `create_temp_directory` (workdir.py:46-51): the build directory's name is a parameter of the build.
- Calling `build()` twice on one builder is not modelled.
- Display of values in messages follows Python's `str` for strings, numbers, booleans and None only.
- `print_help`, `print_builtins_help` and `BuiltinsHelpAction`: help output only.
- `process.py` is reduced to its execution result and the runner oracle.
- `errors.py`: `BuildContextError`, which context.py raises, is not defined there. The model gives it its own error kind.
- change_and_load_custom, which builder.py imports, is not defined in customcommands.py. `CustomCommands.ChangeAndLoadCustom` follows what `tests/customcommands_test.py:157-164` expects of it.
- Models.BuildFileObject.ProcessSetter: models the corrected `process`, which does not validate an absent property (see Findings); as written the library validator sees None and raises TypeError.
- Models.SetProperties: runs the corrected `process` (see Findings), so an absent library keeps its default instead of raising TypeError.
- Models.DockerBuild.SetAttributes: uses the corrected `process` (see Findings); as written a build without `library` fails here with TypeError.
- Models.DockerBuild.Initialise: uses the corrected `process` (see Findings); as written a build without `library` fails with TypeError.
- BuildParser.Parse: initialises through the corrected `process` (see Findings); as written a build file without `library` is rejected with TypeError.
- Builtins.CopyHook: when a number or boolean source, or a non-string target, reaches `shutil`, what `shutil` does is the host oracle `copyOther`.
- Builtins.ScriptNonStringArgument: the TypeError of `re.match` carries the message of Python before 3.12; newer versions append the type.
- CustomCommands.CheckPath: an integer or boolean path is taken for a file descriptor that is not a regular file, so it is rejected like a missing file. An open descriptor to a regular file would pass `os.path.isfile` and then make `path.endswith` raise AttributeError; that case is not modelled.
- Builder.AfterStepsShape: states the phases by event kind only; that every post-build step ran, in order, is `Builder.AfterStepsAnnounce`.
- Builder.InBuildDirectoryShape: states the phases by event kind only; that every step ran, in order and numbered from 1, is `Builder.InBuildDirectoryAnnounce`.
- Builder.BodySucceeds: states the phases by event kind only; which steps ran is `Builder.BodyAnnounces`, and both are combined in `Builder.SuccessfulBuild`.
- YAML floats, timestamps and binary values have no constructor in `Values.Value`, so a build file holding one is outside the model. An example is `[--python, 3.8]`, whose join fails with `float found`.
- Builtins.Hook: a mapping given as a step's `arguments` reaches the builtin hooks as the list of its keys. In the source, those hooks that index `args[0]` raise KeyError(0) instead. Custom commands do receive the mapping itself.
- Builder.FailedBuild: requires the copying to have succeeded. A copy error is whatever `shutil.copy` raises, which escapes `build()`.

## Findings

| source | as written | input that shows it | evidently intended | confidence | as-written member | corrected member |
|---|---|---|---|---|---|---|
| dockerwizard/models.py:107-110 | `process` runs the validator even when the optional property is absent, so `validate_file_library(None)` calls `os.path.isdir(None)`, which raises TypeError | a build file whose `build` node has no `library` key | an absent optional property is not validated and keeps its default (the library stays the working directory) | not executed | Models.AbsentLibraryRejectedAsWritten | Models.AbsentLibraryKeepsDefault |
