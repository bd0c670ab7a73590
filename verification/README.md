# A verified model of scinit

scinit is a small init daemon for containers: it reads a list of programs, resolves
their `before` and `after` names into wait conditions, forks the programs whose
conditions hold, reaps them, logs what they print, forwards signals to them and decides
when it may exit. This project models that supervisor in Dafny and proves what its
protocol keeps, promises and, in a few places, fails to promise.

## How it is built

The program updates objects in place, and so does the model: `ChildProcess.dfy`,
`ProcessHandler.dfy` and `ConfigFile.dfy` hold one class per class of the program, with
the program's fields, loops and branches; `Trim.dfy` and `Environment.dfy` hold the two
loops over text. Every method is proved against a specification on values:
`Registration.dfy` for the wait conditions, `Supervisor.dfy` for the bookkeeping (a
value `Sup` with the maps, the counters, the states and a log of forks, exits, signals and
printed lines) and `EventLoop.dfy` for the loop. The theorems are about those
specifications, so they hold of the classes. What a specification function computes is in
turn told without it: registration as a graph over names, a start-up call by the states
before it, each event by its whole new state, a pass by its steps and verdict, output as the
text between newlines, configuration entries field by field, variables by their values.

| file | content |
|---|---|
| `Lifecycle.dfy`, `Collections.dfy` | states, conditions; ordered walks over sets, pigeonhole |
| `Registration.dfy` | the three nested loops of dependency registration and the graph they compute |
| `Supervisor.dfy` | one function per operation on the bookkeeping |
| `History.dfy` | what a log says, and when it is in order |
| `Invariants.dfy`, `Preservation.dfy` | the agreement of all redundant bookkeeping, operation by operation |
| `Events.dfy` | what each event does, in plain terms: output, signals, hangups, exits; the lines of a whole run |
| `Runs.dfy` | runs: any interleaving of start-up calls, exits and descriptor events |
| `StartUp.dfy` | a start-up call as one simultaneous step |
| `EventLoop.dfy`, `Quiescence.dfy` | the event loop is a run; what its return means; why a program is stuck |
| `Progress.dfy`, `Liveness.dfy` | a measure that bounds every run; when every program gets started, and when every one is seen through |
| `Passes.dfy` | what follows from the order of steps within a pass |
| `EndToEnd.dfy` | from the declared names to every fork in every run |
| `Scripts.dfy`, `Stranding.dfy` | the loop under a scripted operating system; which programs it can leave behind, told from the plan |
| `Confluence.dfy` | with waits for DONE only, the outcome does not depend on timing |
| `Instances.dfy` | small configurations in which the code and its documentation part, followed through the loop |
| `Trim.dfy`, `Environment.dfy` | cleaning up output; building the environment of a child |
| `ChildProcess.dfy`, `ProcessHandler.dfy`, `ConfigFile.dfy` | the classes |

A run (`Runs.Run`) is any sequence of steps the operating system may produce, so a theorem
about runs covers every order of exits, hangups, output and signals. `EventLoop.LoopIsRun`
shows that whatever the event loop does is a run; runs admit more, so what can go wrong is
shown of the loop itself. `ConfigFile.Supervise` puts all the parts together as `main` does.

## Assumptions

- Ids are the positions in the program list. `ConfigFile.Config` proves this of the
  configuration reader; the handler's methods require it.
- System calls succeed. `fork` returns a positive pid that no live child has, pipes return
  descriptors that are not watched (`Invariants.KernelFresh`). They are arguments of the
  operations.
- One `epoll_wait` batch reports distinct watched descriptors, and the signal descriptor
  only as readable, with a signal of its mask (`EventLoop.BatchOk`, `Preservation.WakeOk`).
  `waitpid` may report any pid and any status, and a batch may be empty or of any size.
- A read of the signal descriptor returns a whole record.
- `register_processes` is called once, before the event loop.
- Names need not be distinct: a program whose logger name is taken is passed over, as in the
  code. The theorems that need distinct names say so (`Plan.DistinctNames`).
- `std::map` and JSON objects are walked in ascending order of their keys, names byte by
  byte.

## Where the code and its documentation part

The model follows the code.

- A `before` edge from a program listed after its target is registered too late, because
  the target has been made READY by then. An edge is honoured in every run exactly when its
  target was gated in time (`EndToEnd.HonouredExactly`; an instance is
  `Instances.SetupListedLastIsIgnored`).
- README.md:57 calls a program started by that program's own type. The awaited state comes
  from the type of the program whose list is being read, which for `after` is the waiting
  one. When the two agree is `Registration.AwaitsOwnStartedState`; an instance where they
  do not is `Instances.SimpleAfterOneshotDisagrees`.
- A program need not be started although everything it waits for was. A condition tests for
  exactly one state, so a wait on a program that ended in another one is missed for good
  (`EndToEnd.MissedForever`). Which programs this can happen to is told by the declarations:
  with distinct names, the loop starts a program whatever happens exactly when it was not
  gated in time, or each edge to it awaits RUNNING of a program that was not (`Stranding.StartsAsDeclaredExactly`,
  and `Stranding.StartsExactly` over plans). Every other program is stranded by some pass,
  for every run that could follow (`Stranding.CanBeStranded`). Instances are a oneshot that
  crashes (`Instances.CrashingSetupStrands`) and a simple program that is forked at the top
  of a pass and reaped in the same pass (`Instances.ThirdInLineMissed`).
- The quit test names SIGTERM, but the mask of the signal descriptor does not hold it. What
  the supervisor can read are SIGCHLD, SIGINT and SIGQUIT; it is told to quit exactly by the
  last two (`Runs.QuitExactly`), and SIGTERM only occurs as what SIGINT is turned into.
- The start-up call at the top of a pass does not look at the quit request, the one at the
  bottom does. A program that becomes due in between is forked while quitting
  (`Passes.QuittingForksExactly`), and the signal is not sent again
  (`StartUp.StartOnlyForks`); an instance is `Instances.StartedWhileQuitting`.
- When a child prints a NUL byte, newlines in front of it stay in the log
  (`Trim.OutputCleanExactly`, `Trim.NulKeepsNewline`).
- A due program whose name is already a logger's, or is taken first by a due program listed
  earlier, is left READY (`StartUp.LeftReadyExactly`) and stays so in every run
  (`StartUp.LeftReadyForever`); an instance is `Instances.SecondNamesakeNeverStarts`.

## Model

| member | source | states |
|---|---|---|
| `Registration.AddConditionDistinct` | src/ChildProcess.cpp:376-390 | A wait on a program already waited for is not added again |
| `Registration.ScanComputes` | src/ChildProcess.cpp:394-408 | One listed name makes exactly the matching programs wait (or be waited for); waits that exist keep their state |
| `Registration.ScanNamesComputes` | src/ChildProcess.cpp:409-410 | The same for a whole `before` or `after` list: the union over its names, whatever their order or repetition |
| `Registration.PropagateComputes` | src/ChildProcess.cpp:392-416 | One program's propagation adds exactly its own layer of edges, existing waits winning |
| `Registration.RegisterComputes` | src/ProcessHandler.cpp:34-43 | After any number of propagations the waits are those declared by the programs done so far, the first of the two programs deciding the state |
| `Registration.RegisterSettles` | src/ChildProcess.cpp:411-415 | READY or BLOCKED is decided by a program's own propagation and not revised by later ones |
| `Registration.RegisteredGraph` | src/ChildProcess.cpp:376-416 | After registration a program's conditions are, without duplicates, exactly the declared edges with their declared states; the lists are used up |
| `Registration.ReadyAfterRegistration` | src/ChildProcess.cpp:409-415 | A program is left READY iff no `after` name matches and no program up to itself names it under `before` |
| `Registration.AllEdgesHonoured` | src/ProcessHandler.cpp:34-43 | All declared edges hold their targets back iff every program with edges was gated in time |
| `Registration.AwaitsOwnStartedState` | src/ChildProcess.cpp:394-410 | The awaited state is the one README.md gives the awaited program iff a deciding `after` edge joins equal types |
| `Registration.AllAwaitOwnStartedState` | README.md:57 | A whole configuration follows the documented notion of started iff every deciding `after` edge joins equal types |
| `Processes.ChildProcess.constructor` | src/ChildProcess.cpp:43-53 | A new program is BLOCKED without conditions, simple iff its type says so in any case, and holds no pid or pipe |
| `Processes.ChildProcess.ShouldWaitFor` | src/ChildProcess.cpp:376-390 | Appends the condition unless one on that program is there |
| `Processes.ChildProcess.ScanOthers` | src/ChildProcess.cpp:394-408 | The loop over the programs, in place, computes the scan of one name |
| `Processes.ChildProcess.ScanList` | src/ChildProcess.cpp:409-410 | The loop over a list of names, in place |
| `Processes.ChildProcess.PropagateDependencies` | src/ChildProcess.cpp:392-416 | In place: all conditions of all programs, the cleared lists and the settled state are those of one propagation |
| `Processes.ChildProcess.NotifyOfState` | src/ChildProcess.cpp:420-451 | A BLOCKED program becomes READY iff every condition names a known program in exactly the awaited state; nothing else changes |
| `Processes.ChildProcess.DoFork` | src/ChildProcess.cpp:229-352 | Only a READY program forks; it is then RUNNING, keeps the pid and the read ends, and is entered in the pid map; otherwise it throws and nothing changes |
| `Processes.ChildProcess.RegisterWithEpoll` | src/ChildProcess.cpp:354-370 | Both read ends are watched and mapped to the program and to their kinds |
| `Processes.ChildProcess.HandleProcessEvent` | src/ChildProcess.cpp:453-468 | An exit leads to DONE for status zero and to CRASHED otherwise, a hangup to nothing |
| `Handler.ProcessHandler.RegisterProcesses` | src/ProcessHandler.cpp:34-43 | The list is kept, every program is propagated in list order, and the supervisor stands in its initial state for the registered plan |
| `Handler.ProcessHandler.RegisterForProcessState` | src/ProcessHandler.cpp:45-53 | The handler is added to those told of the id's exits, after the ones already there |
| `Handler.ProcessHandler.RegisterObjId` | src/ProcessHandler.cpp:55-57 | The object is known under the id |
| `Handler.ProcessHandler.SignalReceived` | src/ProcessHandler.cpp:59-80 | SIGCHLD changes nothing; any other signal is sent, SIGINT as SIGTERM, and the quit bit is set by the bit test |
| `Handler.ProcessHandler.KillAll` | src/ProcessHandler.cpp:69-72 | One kill per key of the pid map, in ascending order |
| `Handler.ProcessHandler.LogOutput` | src/ProcessHandler.cpp:82-98 | On the real maps: an unknown descriptor or id is not found, one of no known kind prints nothing, and otherwise one line goes out under the program and kind the maps give |
| `Handler.ProcessHandler.HandleChildOutput` | src/ProcessHandler.cpp:82-102 | That line is added to the log, and a descriptor or id that is not found throws |
| `Handler.ProcessHandler.HangupReceived` | src/ProcessHandler.cpp:146-169 | The descriptor leaves the interest set and both maps, the count goes down by one with unsigned wrap-around, an unknown id at zero throws |
| `Handler.ProcessHandler.EventReceived` | src/ProcessHandler.cpp:104-174 | Signal, output, hangup or unknown event, chosen and handled as in the code |
| `Handler.ReadOutput` | src/ProcessHandler.cpp:117-139 | The zeroed buffer, partly filled, gives the trimmed text of what was read |
| `Handler.ProcessHandler.SigchldReceived` | src/ProcessHandler.cpp:176-197 | A known pid leaves the map, the count goes down and the program is told; an unknown one changes nothing |
| `Handler.ProcessHandler.RaiseExit` | src/ProcessHandler.cpp:192 | Every handler registered for the id is told of the exit |
| `Handler.ProcessHandler.SetupSignalHandlers` | src/ProcessHandler.cpp:244-270 | The mask is SIGCHLD, SIGINT and SIGQUIT, and the signal descriptor is what the new epoll instance watches |
| `Handler.ProcessHandler.NotifyPrograms` | src/ProcessHandler.cpp:274-280 | The first loop, in place and in list order |
| `Handler.ProcessHandler.StartProgram` | src/ProcessHandler.cpp:282-301 | One turn of the second loop: pass over, fork and watch, or be refused the logger |
| `Handler.ProcessHandler.StartPrograms` | src/ProcessHandler.cpp:273-303 | Both loops in place; programs, maps, counters and log are those of one start-up call |
| `Handler.ProcessHandler.ReapChildren` | src/ProcessHandler.cpp:212-216 | The waitpid loop; every exit reaches a program that exists |
| `Handler.ProcessHandler.DeliverEvents` | src/ProcessHandler.cpp:218-224 | The batch, given up at the first event that throws |
| `Handler.ProcessHandler.Pass` | src/ProcessHandler.cpp:206-238 | One turn of the loop: start, reap, handle the batch, then decide whether to return |
| `Handler.ProcessHandler.EnterEventLoop` | src/ProcessHandler.cpp:199-239 | The whole call ends in a reachable state; without a quit request it returns only when settled, and on either return no program object is RUNNING |
| `ConfigFile.Config.AddProgram` | src/Config.h:194-199 | A new program gets the next id, is listed last and is made known to the handler under that id |
| `ConfigFile.Config.NewProgram` | src/ChildProcess.cpp:55-56 | A new program has itself told of the exits of its id |
| `ConfigFile.Config.ParseFile` | src/Config.h:98-201 | Entries without a name or a path are skipped, the others become programs in order; ids stay equal to list positions |
| `ConfigFile.EntriesBecomePrograms` | src/Config.h:98-199 | The programs of a list are, in order, exactly its entries with a name and a path, each with that name, `before` and `after`, BLOCKED without conditions, and SIMPLE iff no type is given or it spells simple in small or capital letters |
| `ConfigFile.KindIsSpelled` | src/ChildProcess.cpp:48-53 | A type means SIMPLE iff it is the six letters of simple, each small or capital |
| `ConfigFile.Config.LoadFiles` | src/Config.h:54-60 | The same over any sequence of files; it fails at the first one without a `programs` list and keeps what was read before |
| `ConfigFile.FilesBecomePrograms` | src/Config.h:54-60 | The same over files: all such entries before the first file without a `programs` list, by file and then by entry |
| `ConfigFile.EdgesAreRead` | src/Config.h:118-119 | The `before` and `after` edges of the programs read are those their entries list |
| `ConfigFile.DeclaredStops` | src/Config.h:76-85 | Nothing is read from a file without a `programs` list onwards |
| `ConfigFile.Supervise` | src/main.cpp:74-85 | Reading, registration and event loop fit together: every later state is reachable from what the files declare |
| `Invariants.NotifyAllAtOnce` | src/ProcessHandler.cpp:274-280 | Updating programs one by one releases exactly those released by the states before the loop |
| `Invariants.StartKeeps` | src/ProcessHandler.cpp:273-303 | A start-up call keeps the whole invariant: counts, pid map, descriptor maps, loggers and log |
| `Preservation.ReapKeeps` | src/ProcessHandler.cpp:176-197 | Reaping any pid keeps the whole invariant |
| `Preservation.ExitIsJustified` | src/ProcessHandler.cpp:190-193 | An exit event is only ever delivered to a RUNNING program, under its own pid |
| `Preservation.ForwardKeeps` | src/ProcessHandler.cpp:59-80 | Forwarding any signal of the mask keeps the whole invariant |
| `Preservation.ForwardReachesRunning` | src/ProcessHandler.cpp:68-72 | A forwarded signal goes exactly once to every RUNNING program and to no other pid |
| `Preservation.QuitTestExactly` | src/ProcessHandler.cpp:74-78 | For every signal of the mask the bit test does what was meant; over all numbers it does iff the signal is one of the three meant, SIGCHLD, or a multiple of sixteen |
| `Preservation.HangupKeepsFds` | src/ProcessHandler.cpp:150-158 | A watched descriptor's hangup keeps the descriptor maps in agreement; its count does not wrap and nothing throws |
| `Preservation.PrintKeeps` | src/ProcessHandler.cpp:82-102 | Output of a watched descriptor finds its id, its object and its kind: it is logged under the started program that holds this read end, as stdout or stderr accordingly |
| `Preservation.OutputHasLogger` | src/ProcessHandler.cpp:90-97 | The program an open descriptor is mapped to has its logger registered |
| `Preservation.DeliverKeeps` | src/ProcessHandler.cpp:104-174 | Every event of a watched descriptor keeps the invariant; it throws iff it is neither readable nor a hangup |
| `Events.OutputIsLogged` | src/ProcessHandler.cpp:116-144 | A read of child output adds exactly one line to the log, under the program and kind of the read end and with the text as trimmed, or nothing if nothing is left of it; all else stays |
| `Events.RunPrints` | src/ProcessHandler.cpp:116-144 | Over a whole run the lines logged correspond one to one, in order, to the reads of which something is left |
| `Events.SignalIsForwarded` | src/ProcessHandler.cpp:59-80 | Reading SIGINT sends SIGTERM, reading SIGQUIT sends SIGQUIT, once to the pid of every RUNNING program and to nobody else, and asks to quit; SIGCHLD changes nothing |
| `Events.SignalsArrive` | src/ProcessHandler.cpp:246-253 | SIGINT, SIGQUIT and SIGCHLD can be read, and no other signal |
| `Events.HangupIsForgotten` | src/ProcessHandler.cpp:146-158 | A hangup takes the descriptor out of the interest set and both maps and its program's count down by one; all else stays |
| `Events.UnknownIsThrown` | src/ProcessHandler.cpp:170-173 | An event that is neither readable nor a hangup throws and changes nothing |
| `Events.LookupsThatFail` | src/ProcessHandler.cpp:82-90 | In any state, a descriptor that is not watched or not mapped throws, and one of no known kind prints nothing |
| `Events.ExitIsRecorded` | src/ProcessHandler.cpp:176-193 | The exit of a RUNNING program makes it DONE for status zero and CRASHED otherwise, takes it out of the pid map and down the count; all else stays |
| `Events.ZombieIsIgnored` | src/ProcessHandler.cpp:194-196 | Any other pid changes nothing |
| `Events.NeverCalledScinit` | src/main.cpp:47-48 | A program with the main logger's name is never started |
| `Preservation.CountsAreCardinalities` | src/ProcessHandler.h:62-63 | `num_fd_for_id` of a started program is the number of descriptors mapped to it, at most two |
| `Preservation.CountsAgree` | src/ProcessHandler.cpp:176-197 | Running count = size of the pid map = number of RUNNING programs = forks minus exits; the pid map is a bijection onto the RUNNING programs |
| `Runs.RunKeeps` | src/ProcessHandler.cpp:199-239 | The invariant holds after every run |
| `Runs.ReachableInv` | src/ProcessHandler.cpp:199-239 | All bookkeeping agrees in every reachable state |
| `Runs.RunRises` | src/ChildProcess.cpp:420-468 | In every run each program's state only moves up the lifecycle, and a terminated one is final |
| `Runs.QuitIsFinal` | src/ProcessHandler.cpp:74-78 | `should_quit` never reverts |
| `Runs.QuitExactly` | src/ProcessHandler.cpp:246-253 | A run tells the supervisor to quit iff it reads SIGINT or SIGQUIT; SIGTERM is never read |
| `Runs.TurnedAwayForever` | src/ProcessHandler.cpp:287-298 | A READY program whose logger name is taken stays READY in every run |
| `Runs.DoomedForever` | src/ChildProcess.cpp:422-450 | A set of BLOCKED programs each waiting on a member, on one that ended in the wrong state or on one that was refused is never released in any run |
| `History.ForkOrder` | src/ChildProcess.cpp:420-451 | In an orderly log a gated fork comes with its condition in the awaited state, after that program's fork and, for DONE, after its exit with status zero |
| `History.AtMostOnce` | src/ChildProcess.cpp:229-232 | No program is forked twice or exits twice |
| `StartUp.StartMovesDue` | src/ProcessHandler.cpp:273-303 | In any list order a program moves iff it was due before the call, and then to RUNNING unless its logger name is taken |
| `StartUp.StartAtOnce` | src/ProcessHandler.cpp:273-303 | With distinct names a start-up call is one simultaneous step of all due programs |
| `StartUp.OrderIrrelevant` | src/ProcessHandler.cpp:273-303 | The states after a start-up call do not depend on list order |
| `StartUp.StartExactly` | src/ProcessHandler.cpp:273-303 | From the state before the call: a program moves iff due, to READY if its name is registered or a due program listed earlier takes it, and otherwise to RUNNING with its own pid and read ends |
| `StartUp.LeftReadyExactly` | src/ProcessHandler.cpp:287-298 | A program is left READY iff it is due before the call and its name is registered or that of a due program listed earlier |
| `StartUp.LeftReadyForever` | src/ProcessHandler.cpp:287-298 | Left READY once, it is READY after every run that follows |
| `StartUp.StartOnlyForks` | src/ProcessHandler.cpp:273-303 | A start-up call logs forks only; it sends no signal |
| `EventLoop.LoopIsRun` | src/ProcessHandler.cpp:199-239 | Whatever number of passes the loop makes, what it does is a run |
| `EventLoop.LoopReaches` | src/ProcessHandler.cpp:199-239 | From registration on, the loop's state is a reachable one |
| `EventLoop.DeliverAllIsRun` | src/ProcessHandler.cpp:218-224 | The events of a batch are handled one by one in order, all of them or up to the first that throws; each is still watched when its turn comes |
| `EventLoop.HandledIsRun` | src/ProcessHandler.cpp:207-224 | A pass up to its verdict is the top start-up call, all exits in order, then the events |
| `EventLoop.IterateIsRun` | src/ProcessHandler.cpp:206-238 | A pass ends with the second start-up call iff nothing threw and no quit request stands |
| `EventLoop.VerdictExactly` | src/ProcessHandler.cpp:226-237 | A pass throws iff an event does; otherwise it goes on iff a program is RUNNING, and returns for the quit request or as idle |
| `Passes.LoopFirst` | src/ProcessHandler.cpp:206-238 | The loop is its first pass, followed by the loop over the rest iff that pass goes on |
| `Quiescence.IdleStartSettles` | src/ProcessHandler.cpp:231-237 | If a start-up call leaves nothing running, each program is terminated, refused its name, or BLOCKED on an unmet condition |
| `Quiescence.ReturnsAreRight` | src/ProcessHandler.cpp:226-237 | The idle return happens only in a settled state, the quit return only with nothing running |
| `Quiescence.LoopReturnsAreRight` | src/ProcessHandler.cpp:199-239 | The same for the whole loop |
| `Quiescence.SettledStates` | src/ProcessHandler.cpp:231-237 | With distinct names the idle return leaves every program BLOCKED or terminated |
| `Quiescence.StartIdles` | src/ProcessHandler.cpp:231-237 | Another start-up call would change nothing at all |
| `Quiescence.NothingMoreHappens` | src/ProcessHandler.cpp:231-237 | After an idle return no run whatever would change the state of a program |
| `Quiescence.StuckIsExplained` | src/ProcessHandler.cpp:231-237 | Each program still BLOCKED starts a chain of unmet waits that ends at one terminated in another state, at one refused its name, or in a cycle |
| `Quiescence.ExplainedStaysBlocked` | src/ChildProcess.cpp:422-450 | Conversely such a chain keeps its programs BLOCKED in every run |
| `Passes.DirectDependentsStart` | src/ProcessHandler.cpp:201-207 | The loop starts every program that was READY after registration or waits only for RUNNING of such programs |
| `Stranding.OnePassStrands` | src/ProcessHandler.cpp:201-237 | If all that runs in the first pass crashes, the loop returns with exactly those programs forked and the others BLOCKED |
| `Stranding.CanBeStranded` | src/ProcessHandler.cpp:201-237 | Any other program is left BLOCKED by some idle return, and by every run that could follow |
| `Stranding.StartsExactly` | src/ProcessHandler.cpp:199-239 | The loop starts a program whatever happens iff it was READY after registration or waits only for RUNNING of such programs |
| `Stranding.StartsAsDeclaredExactly` | src/ChildProcess.cpp:392-451 | The same from the declarations: iff it was not gated in time or each edge to it awaits RUNNING of a program that was not |
| `Stranding.IdleIsFinal` | src/ProcessHandler.cpp:231-237 | Whatever state an idle return leaves, every later run leaves too |
| `Passes.QuittingForksExactly` | src/ProcessHandler.cpp:207-237 | Told to quit, a pass forks a program iff it is due at its top and its name is free |
| `Progress.NextConserves` | src/ProcessHandler.cpp:154-158 | Open descriptors are two per fork less the hangups |
| `Progress.NextMeasure` | src/ChildProcess.cpp:453-468 | The measure drops by what the states rose and the hangups closed: strictly on every such step, never up |
| `Progress.RunsAreBounded` | src/ProcessHandler.cpp:199-239 | A run over n programs has at most 5n steps that change a state or close a descriptor, and at most n forks |
| `Liveness.StartedWithinDepth` | src/ProcessHandler.cpp:273-303 | A program of dependency depth k is forked within k + 1 rounds of at least one start-up call each, a round ending when the started programs are in their awaited states |
| `Liveness.AllGetStarted` | src/ProcessHandler.cpp:273-303 | Without a cycle of waits, n such rounds fork all n programs |
| `Liveness.SettledCompletes` | src/ProcessHandler.cpp:231-237 | Settled, without a cycle of waits and with distinct names, all programs have terminated iff none missed what it waited for |
| `Liveness.LoopCompletes` | src/ProcessHandler.cpp:199-239 | The same of every idle return of the loop, whatever the timing of events |
| `Confluence.DependencyDone` | src/ChildProcess.cpp:420-451 | What a started program waited to be DONE is DONE from then on |
| `Confluence.SettledAgree` | src/ProcessHandler.cpp:231-237 | With waits for DONE only and no cycle, two settled states of one plan agree when the exit statuses do |
| `Confluence.LoopsAgree` | src/ProcessHandler.cpp:199-239 | Two loops over such a plan that return idle leave every program in the same state, whatever the pids, descriptors, order and timing |
| `EndToEnd.RegisteredWellFormed` | src/ProcessHandler.cpp:34-43 | Registration yields a plan the supervisor can work from |
| `EndToEnd.ForksFollowDeclarations` | src/ChildProcess.cpp:392-451 | In every run a gated program is forked only while each declared dependency is in its declared state, after its fork and, for DONE, its successful exit |
| `EndToEnd.StartedAsDocumented` | README.md:57 | At that fork the dependency is started in the documented sense iff a deciding `after` edge joins equal types |
| `EndToEnd.SignalsReachOnlyTheLiving` | src/ProcessHandler.cpp:59-72 | In every run only SIGTERM and SIGQUIT are sent, and only to pids that were forked and not reaped |
| `EndToEnd.OncePerProgram` | src/ChildProcess.cpp:229-232 | In every run a program is forked at most once and exits at most once |
| `EndToEnd.HonouredExactly` | src/ChildProcess.cpp:411-422 | A declared edge is honoured at every fork of its target in every run iff the target was gated in time |
| `EndToEnd.MissedForever` | src/ChildProcess.cpp:432-441 | A wait on a program that ended in another state blocks for good, the crashed oneshot included |
| `Instances.SetupListedLastIsIgnored` | src/ChildProcess.cpp:411-422 | A oneshot listed after the program it names under `before` does not hold it back |
| `Instances.SimpleAfterOneshotDisagrees` | src/ChildProcess.cpp:402-403 | A simple program after a oneshot waits for it to run, not to have finished |
| `Instances.CrashingSetupStrands` | src/ProcessHandler.cpp:199-239 | The loop, given a oneshot that crashes, returns with the program behind it BLOCKED, and no run would release it |
| `Instances.ThirdInLineMissed` | src/ProcessHandler.cpp:206-216 | The loop, given a chain of three simple programs, misses the second and blocks the third for good |
| `Instances.TimingDecides` | src/ProcessHandler.cpp:206-237 | With waits for RUNNING the timing does decide: one chain of three programs, all with exit status zero, is seen through or not |
| `Instances.SecondNamesakeNeverStarts` | src/ProcessHandler.cpp:287-298 | Of two programs of one name the first runs and the second is READY after every run |
| `Instances.StartedWhileQuitting` | src/ProcessHandler.cpp:207-237 | The loop, told to quit, forks one more program and goes on for its sake |
| `Trim.TrimOutput` | src/ProcessHandler.cpp:117-139 | The index loops and the two cuts, for any number of characters read or a read error, stay in range and give the specified text |
| `Trim.OutputIsStripped` | src/ProcessHandler.cpp:121-139 | For NUL-free data of any length the output is the one text without newlines at either end that differs from the data only by newlines around it |
| `Trim.OutputExactly` | src/ProcessHandler.cpp:117-144 | For any bytes the output is told without loops: stripped of newlines at both ends, or with a NUL byte the text before the first one stripped in front |
| `Trim.OutputCleanExactly` | src/ProcessHandler.cpp:117-139 | With NUL bytes the output is free of newlines at its ends iff the text before the first NUL is all newlines or ends with none |
| `Trim.NulKeepsNewline` | src/ProcessHandler.cpp:119-139 | An input whose trailing newline is kept |
| `Environment.HandleEnv` | src/ChildProcess.cpp:170-227 | The successive assignments, rendering and splitting give the specified environment, or throw exactly when an inherited entry begins with an equals sign |
| `Environment.RenderLines` | src/ChildProcess.cpp:218-219 | One line per variable in ascending order of the names |
| `Environment.GetLines` | src/ChildProcess.cpp:220-225 | The getline loop splits at every newline and drops an empty rest |
| `Environment.VariableNames` | src/ChildProcess.cpp:187-217 | The names are the inherited ones that are allowed, USER, the defaults if wanted, and the extras |
| `Environment.VariableValues` | src/ChildProcess.cpp:187-217 | Each value comes from the last layer that sets it; an extra is rendered against exactly the layers and extras before it |
| `Environment.DefaultValues` | src/ChildProcess.cpp:203-212 | The value of each of the eight default variables when they are wanted, whatever was inherited, unless an extra sets it |
| `Environment.UserValue` | src/ChildProcess.cpp:201-202 | USER is the user's name unless an extra sets it |
| `Environment.EntrySplits` | src/ChildProcess.cpp:190-199 | An inherited entry is split at its first equals sign; without one it is both name and value |
| `Environment.ThrowsExactly` | src/ChildProcess.cpp:191-194 | Building the environment throws iff an inherited entry begins with an equals sign |
| `Environment.NamesAscend` | src/ChildProcess.cpp:218-219 | The variables come out in ascending order of their names, byte by byte |
| `Environment.SplitExactly` | src/ChildProcess.cpp:220-225 | The lines are the newline-free strings that give the text back, each with a newline after it |
| `Environment.SplitsBackExactly` | src/ChildProcess.cpp:218-226 | Printing and splitting give one string per variable in key order iff no name or value contains a newline |
| `Environment.ReadsBackExactly` | src/ChildProcess.cpp:188-226 | Reading the strings back recovers the variables iff no name contains an equals sign |
| `Environment.EnvironIsLines` | src/ChildProcess.cpp:170-227 | The child's environment is exactly the `name=value` strings of its variables, each name once and ascending, iff none contains a newline |

## Left out

- Capabilities, user and group changes, and file ownership (src/ChildProcess.cpp:71-168): kernel calls without logic of their own.
- Pipes, pseudo-terminals, redirection and exec in the child (src/ChildProcess.cpp:234-346); the parent's effects on states and maps are kept.
- Failing system calls: `fork` returning -1 is not looked at by the code, and failures of `pipe`, `epoll_ctl` (other than removing an unwatched descriptor) and `signalfd` are not modelled.
- `Processes.ChildProcess.DoFork`: does not run `handle_env` (src/ChildProcess.cpp:290), so a start that fails because an inherited entry begins with an equals sign is not part of the supervisor's runs.
- `Processes.ChildProcess.constructor`: the user name and the whitelist (src/ChildProcess.cpp:57-66) are fields of `Environment.Wish` instead; registering with the handler is `ConfigFile.Config.NewProgram`.
- `Handler.ProcessHandler.EnterEventLoop`: the endless loop is followed for as many passes as are given, with what the operating system contributes to each as an argument; the epoll time-out and the batch size of ten are not modelled, since any batch is admitted.
- `ConfigFile.Config.AddProgram`: the id counter is unbounded, and of an entry only the name, path, type, `before` and `after` are kept.
- YAML, user and group lookup with their defaults, command-line options (src/Config.h:87-192, src/main.cpp:32-72): library and operating-system plumbing.
- Templates and JSON: rendering is a total function of the template and the variables so far, not interpreted further.
- The logging library beyond its registry of names; weak pointers and signal objects: program objects live as long as the handler, and a notification is a direct call.
- BACKOFF and restarts: declared, never entered (src/ProcessHandler.cpp:164).
- Liveness is stated under its hypotheses (distinct names, no cycle, started programs reaching what is awaited of them by the end of each round); nothing is claimed of when an operating system delivers an event.
