# CenDash deploy dashboard: the `update` state machine

CenDash is a single-page operator dashboard written in Rust with yew. The
component `Model` holds a host inventory fetched from `/inventory`, the
operator's host selection and git ref, a message log, and two job slots:
`job`, which holds whatever is running (the inventory fetch, the deploy
interval, or the timeout that ends a deploy), and `job_onload`, the
auto-load interval armed at start-up. Every browser event reaches the
component as a `Msg`, and `update` applies it to the fields, one message
at a time.

This project models that component:

- `text.dfy` (module `Text`): Rust's `str::len` as a UTF-8 byte count
  (`Utf8Len`), and `str::split` on one character (`Split`) with its
  inverse `Join`.
- `inventory.dfy` (module `Inventory`): the parse chain run on a loaded
  inventory. It splits the body on `"\n"`. It drops lines starting with
  `[`, lines equal to `"\n"`, and lines of byte length 0. It keeps each
  remaining line's first space-separated field (`Parse`).
- `dashboard.dfy` (module `Dashboard`): the messages, the jobs as `Task`
  values, the fetch callback `OnFetch`, the transition function `Step` over
  a `State` snapshot, and the class `Model`. `Model` has one method per
  message, each assigning the fields in place, and `Update`, which
  dispatches on the message and is proved to agree with `Step`.
- `dashboard_facts.dfy` (module `DashboardFacts`): properties of `Step`
  and of `Run`, which delivers a list of messages in order.

A job is a value that says what it will deliver when it fires:
`Fetch("/inventory")`, `Interval(1000, InventoryLoad)` (the auto-load job),
`Interval(300, InvokeProcess)` (the deploy job) or `Timeout(3000, Done)`.
Storing a new job replaces the old handle, and yew cancels a dropped
handle. Aborting takes the job out of its slot.

Later revisions of this dashboard behave differently. They add a
host-filter pattern, skip lines ending in `]`, store and restore the
session in local storage, say "Wrong GitRef given!", and let the deploy
interval tick until aborted. This model follows the code of this revision:

- there is no filter, no `]` test and no persistence;
- a short git ref or an empty inventory logs "No GitRef given!";
- the first deploy tick (`InvokeProcess`) replaces the interval with a
  3-second timeout that delivers `Done`, so a deploy logs one
  "InvokeProcess!" and then "Done!" (`DashboardFacts.DeployLifecycle`).

## Model

| member | source | states |
|---|---|---|
| Text.Utf8Width | src/lib.rs:141 | one character encodes in 1 to 4 UTF-8 bytes, and in 1 byte exactly when it is below U+0080 |
| Text.Utf8Len | src/lib.rs:141 | the byte length `gitref.len()` lies between the character count and four times it, and is 0 only for the empty string |
| Text.Utf8LenAscii | src/lib.rs:141 | for ASCII text the byte length equals the character count |
| Text.Split | src/lib.rs:122 | `split("\n")` yields at least one piece and no piece contains the separator |
| Text.JoinSplit | src/lib.rs:122 | splitting loses nothing: re-joining the pieces with the separator gives the input back |
| Text.SplitJoin | src/lib.rs:122 | splitting separator-free pieces joined by the separator gives the pieces back, so split and join are inverses |
| Text.SplitWithoutSep | src/lib.rs:122-124 | a string without the separator splits into itself alone |
| Inventory.NewlineTestNeverRejects | src/lib.rs:123 | the filter's `line != "\n"` test never rejects a piece of a split on `"\n"` |
| Inventory.KeepPiece | src/lib.rs:123 | on a piece of the split the filter keeps exactly the non-empty lines that do not start with `[` |
| Inventory.KeptMembers | src/lib.rs:121-123 | a line survives the filter if and only if it is one of the lines and passes the filter's tests |
| Inventory.KeptConcat | src/lib.rs:121-123 | filtering commutes with concatenation, so the kept lines stay in their original order |
| Inventory.ParseLinesConcat | src/lib.rs:120-125 | the parse of concatenated lines is the concatenation of their parses |
| Inventory.ParseLine | src/lib.rs:120-125 | a single line yields exactly one host, its first field, when it is non-empty and not a `[` header, and nothing otherwise |
| Inventory.HostOfIsFirstField | src/lib.rs:124 | the host is the line's prefix before the first space: a prefix without spaces, followed by a space unless it is the whole line; it is the whole line iff the line has no space, and empty when the line starts with a space |
| Inventory.ParseEntry | src/lib.rs:120-125 | the parse has one entry per kept line, entry `i` is the host of kept line `i`, and no entry contains a space |
| Inventory.ParseExample | src/lib.rs:120-125 | `"[group]\nweb01 extra\nweb02\n\n"` parses to `["web01", "web02"]` |
| Inventory.ParseKeepsCarriageReturn | src/lib.rs:122-124 | a CRLF line keeps its `\r` in the host: `"web01\r\n"` parses to `["web01\r"]` |
| Inventory.ParseLeadingSpaceHost | src/lib.rs:124 | a line starting with a space yields the empty host: `" web02"` parses to `[""]` |
| Inventory.HostsAt | src/lib.rs:124-125 | the mapped list has one host per line, entry `i` being the host of line `i` |
| Inventory.HostsConcat | src/lib.rs:124-125 | mapping lines to hosts commutes with concatenation |
| Dashboard.OnFetch | src/lib.rs:97-105 | the callback yields `InventoryLoaded` exactly on a 2xx status, carrying the body or `""` when the body is an error, and `InventoryFetching` otherwise |
| Dashboard.Model.constructor | src/lib.rs:60-83 | `create` starts with no job, the one-second auto-load interval armed, and every list and the git ref empty |
| Dashboard.Model.OnInventoryLoad | src/lib.rs:88-113 | `InventoryLoad` puts the fetch of `/inventory` in the job slot and changes nothing else |
| Dashboard.Model.OnInventoryFetching | src/lib.rs:115-117 | `InventoryFetching` changes no field |
| Dashboard.Model.OnInventoryLoaded | src/lib.rs:119-138 | `InventoryLoaded(data)` sets inventory, all hosts and picked hosts to the parse of `data` and empties both job slots, changing nothing else |
| Dashboard.Model.OnDeploy | src/lib.rs:140-157 | `Deploy` with a git ref over 3 bytes and a non-empty inventory installs the 300 ms interval and clears the log; otherwise it appends "No GitRef given!" and leaves the job; only job and log can change |
| Dashboard.Model.OnAbort | src/lib.rs:159-166 | `Abort` leaves the slot empty and appends "Aborted!", whether or not a job ran |
| Dashboard.Model.OnDone | src/lib.rs:168-175 | `Done` appends "Done!" and empties the slot |
| Dashboard.Model.OnInvokeProcess | src/lib.rs:177-187 | `InvokeProcess` appends "InvokeProcess!" and replaces the job by the 3-second timeout delivering `Done` |
| Dashboard.Model.OnSetGitRef | src/lib.rs:189-191 | `SetGitRef(r)` sets the git ref to `r` and nothing else |
| Dashboard.Model.OnSetOrUnsetHost | src/lib.rs:193-208 | a `Select` change replaces the picked hosts; `Value` and `Files` change nothing |
| Dashboard.Model.Update | src/lib.rs:86-211 | `update` always asks for a render, and the fields afterwards are `Step` of the fields before |
| DashboardFacts.LoadedInventoryResetsSelection | src/lib.rs:119-137 | after `InventoryLoaded(data)`, inventory, all hosts and picked hosts all equal the parse of `data`, both slots are empty, and the log and git ref are unchanged |
| DashboardFacts.InventoryLoadOccupiesSlot | src/lib.rs:88-113 | `InventoryLoad` always ends with a job in the slot |
| DashboardFacts.DeployOutcome | src/lib.rs:140-157 | `Deploy` never changes hosts, inventory or git ref; it clears the log and starts the interval under the guard, appends one complaint and keeps the job otherwise; the log ends empty iff the guard held |
| DashboardFacts.DeployGuardCountsBytes | src/lib.rs:141 | the guard counts UTF-8 bytes: `"éé"` (two characters) passes it, `"abc"` does not |
| DashboardFacts.AbortClearsSlot | src/lib.rs:159-166 | after `Abort` there is no job and exactly one "Aborted!" more |
| DashboardFacts.AbortTwice | src/lib.rs:159-166 | aborting twice leaves no job after each call and appends "Aborted!" twice |
| DashboardFacts.DoneAndInvokeProcess | src/lib.rs:168-187 | `Done` logs "Done!" and empties the slot; `InvokeProcess` logs "InvokeProcess!" and leaves the slot holding the `Done` timeout |
| DashboardFacts.InputsChangeOneField | src/lib.rs:115-117 | `SetGitRef` changes only the git ref, a `Select` only the picked hosts, and `Value`, `Files` and `InventoryFetching` nothing |
| DashboardFacts.RunConcat | src/lib.rs:86-211 | delivering two message lists in turn is delivering their concatenation |
| DashboardFacts.FetchRoundTrip | src/lib.rs:88-137 | a fetch followed by its callback's message installs the parsed body and empties both slots on a 2xx status, and otherwise leaves only the fetch job in place |
| DashboardFacts.InitConsistent | src/lib.rs:73-80 | the state `create` builds has the inventory equal to all hosts and only known jobs in the slots |
| DashboardFacts.StepConsistent | src/lib.rs:86-211 | every message keeps inventory equal to all hosts and only the jobs `update` creates in the slots |
| DashboardFacts.RunConsistent | src/lib.rs:86-211 | any list of messages keeps that consistency |
| DashboardFacts.ReachableConsistent | src/lib.rs:60-211 | every state reachable from `create` is consistent |
| DashboardFacts.RunKeepsPickedWithinAll | src/lib.rs:126-133 | if every selection is drawn from the hosts on display, the picked hosts stay among all hosts |
| DashboardFacts.LogOnlyGrowsWithoutDeploy | src/lib.rs:149-163 | without a `Deploy` the log is only appended to |
| DashboardFacts.OnloadNeverRearmed | src/lib.rs:137 | once the auto-load slot is empty no message fills it again |
| DashboardFacts.ShortGitRefRefused | src/lib.rs:141-156 | after `create`, `SetGitRef("ab")` then `Deploy` leaves the log `["No GitRef given!"]` and no job |
| DashboardFacts.EmptyInventoryRefused | src/lib.rs:141-156 | with no inventory loaded even a long git ref is refused with "No GitRef given!" |
| DashboardFacts.DeployLifecycle | src/lib.rs:140-187 | a permitted deploy clears the log and runs the interval; its first tick logs "InvokeProcess!" and arms the `Done` timeout; `Done` then ends the job |

## Left out

- The view (src/lib.rs:214-295): markup, the injected scrolling script and the disabled buttons. Only `has_job` is kept, as `Dashboard.HasJob`.
- Console logging (`ConsoleService` calls): output only, no model state.
- The timer and fetch services and `Task::cancel`: these are browser timers and network I/O. A job is a value in an `Option` slot. A replaced or aborted handle is simply gone from its slot; the model does not record the cancellation itself.
- The timing of events: when a timer or fetch fires is the browser's business. The model takes messages in delivery order (`Run`).
- The callbacks `callback_tick` and `callback_done`: each job records the message it fires instead.
- `selected_values()` on the `Select` element: a DOM query. A `Select` change carries the selected values already.
- The contents of a `Files` change: it is ignored by `update`, so only file names are kept.
- Building the `Request` with `Request::get(...).unwrap()`: library plumbing. A fetch job records only the path.
- HTTP status codes are natural numbers here. The model does not restrict them to 100-999 as the `http` crate does; only the 2xx test matters.
