/** The dashboard component `Model` and its event handler `update`
    (src/lib.rs:22-211). Browser timers and the network fetch are not
    modelled as running things: a scheduled job is a `Task` value naming
    what it will deliver, held in one of two `Option` slots, and
    cancelling a job empties its slot. */
module Dashboard {
  import opened Text
  import opened Inventory

  datatype Option<T> = None | Some(value: T)

  /** The payload of a DOM change event (yew's `ChangeData`). A `Select`
      already carries the values of the selected options; `Files` stands
      for a file list, of which only the names are kept. */
  datatype ChangeData =
    | Select(selected: seq<string>)
    | Value(value: string)
    | Files(names: seq<string>)

  /** The messages `update` handles (src/lib.rs:43-53). */
  datatype Msg =
    | Abort
    | Done
    | InvokeProcess
    | Deploy
    | SetGitRef(ref: string)
    | SetOrUnsetHost(change: ChangeData)
    | InventoryLoad
    | InventoryLoaded(data: string)
    | InventoryFetching

  /** A scheduled job: a fetch of a path, a repeating interval or a
      one-shot timeout, each with the message it delivers when it fires. */
  datatype Task =
    | Fetch(path: string)
    | Interval(periodMs: nat, fires: Msg)
    | Timeout(delayMs: nat, fires: Msg)

  const InventoryFile: string := "/inventory"

  /** The fetch started by `InventoryLoad`. */
  const InventoryFetch: Task := Fetch(InventoryFile)
  /** The auto-load job armed by `create`: `InventoryLoad` every second. */
  const OnloadJob: Task := Interval(1000, InventoryLoad)
  /** The deploy job: `InvokeProcess` every 300 ms. */
  const DeployJob: Task := Interval(300, InvokeProcess)
  /** The job `InvokeProcess` leaves behind: `Done` after three seconds. */
  const DoneJob: Task := Timeout(3000, Done)

  const NoGitRefGiven: string := "No GitRef given!"
  const Aborted: string := "Aborted!"
  const DoneMessage: string := "Done!"
  const InvokeProcessMessage: string := "InvokeProcess!"

  /** The body of a fetch response: text, or the error reading it failed with. */
  datatype Body = Ok(text: string) | Err

  /** A fetch response: its HTTP status code and its body. */
  datatype Response = Response(status: nat, body: Body)

  /** `StatusCode::is_success`: a 2xx status. */
  predicate IsSuccess(status: nat)
  {
    200 <= status < 300
  }

  /** The callback the inventory fetch reports through: a success status
      delivers the body, or "" when the body could not be read
      (`unwrap_or_default`); any other status asks to wait. */
  function OnFetch(response: Response): (m: Msg)
    ensures m.InventoryLoaded? <==> IsSuccess(response.status)
    ensures !m.InventoryLoaded? ==> m == InventoryFetching
    ensures m.InventoryLoaded? && response.body.Ok? ==> m.data == response.body.text
    ensures m.InventoryLoaded? && response.body.Err? ==> m.data == ""
  {
    var data := match response.body
      case Ok(text) => text
      case Err => "";
    if IsSuccess(response.status) then InventoryLoaded(data) else InventoryFetching
  }

  /** The condition under which `Deploy` starts a job: a git ref longer
      than three bytes and a non-empty inventory. */
  predicate CanDeploy(gitref: string, inventory: seq<string>)
  {
    Utf8Len(gitref) > 3 && |inventory| > 0
  }

  /** A snapshot of the fields of `Model` that `update` reads or writes. */
  datatype State = State(
    job: Option<Task>,
    jobOnload: Option<Task>,
    messages: seq<string>,
    hostsAll: seq<string>,
    hostsPicked: seq<string>,
    gitref: string,
    inventory: seq<string>)

  /** The state `create` builds (src/lib.rs:73-80). */
  function Init(): State
  {
    State(None, Some(OnloadJob), [], [], [], "", [])
  }

  /** The render layer's `has_job`. */
  predicate HasJob(s: State)
  {
    s.job.Some?
  }

  /** One run of `update`, as a function of the state before it. */
  function Step(s: State, m: Msg): State
  {
    match m
    case InventoryLoad => s.(job := Some(InventoryFetch))
    case InventoryFetching => s
    case InventoryLoaded(data) =>
      var hosts := Parse(data);
      s.(inventory := hosts, hostsAll := hosts, hostsPicked := hosts, job := None, jobOnload := None)
    case Deploy =>
      if CanDeploy(s.gitref, s.inventory) then s.(job := Some(DeployJob), messages := [])
      else s.(messages := s.messages + [NoGitRefGiven])
    case Abort => s.(job := None, messages := s.messages + [Aborted])
    case Done => s.(job := None, messages := s.messages + [DoneMessage])
    case InvokeProcess => s.(job := Some(DoneJob), messages := s.messages + [InvokeProcessMessage])
    case SetGitRef(ref) => s.(gitref := ref)
    case SetOrUnsetHost(change) =>
      match change
      case Select(selected) => s.(hostsPicked := selected)
      case Value(_) => s
      case Files(_) => s
  }

  /** The states after delivering the messages one at a time. */
  function Run(s: State, ms: seq<Msg>): State
    decreases |ms|
  {
    if |ms| == 0 then s else Run(Step(s, ms[0]), ms[1..])
  }

  /** The component itself, whose fields `update` assigns in place. */
  class Model {
    var job: Option<Task>
    var jobOnload: Option<Task>
    var messages: seq<string>
    var hostsAll: seq<string>
    var hostsPicked: seq<string>
    var gitref: string
    var inventory: seq<string>

    function Snapshot(): State
      reads this
    {
      State(job, jobOnload, messages, hostsAll, hostsPicked, gitref, inventory)
    }

    /** `create`: no job, the auto-load interval armed, everything empty. */
    constructor ()
      ensures job == None && jobOnload == Some(OnloadJob)
      ensures messages == [] && hostsAll == [] && hostsPicked == []
      ensures gitref == [] && inventory == []
      ensures Snapshot() == Init()
    {
      job := None;
      jobOnload := Some(OnloadJob);
      gitref := "";
      messages := [];
      inventory := [];
      hostsAll := [];
      hostsPicked := [];
    }

    /** Start fetching the inventory; the fetch replaces whatever job ran. */
    method OnInventoryLoad()
      modifies this`job
      ensures job == Some(InventoryFetch)
    {
      job := Some(InventoryFetch);
    }

    /** The fetch reported a failure status: only a console line. */
    method OnInventoryFetching()
      ensures Snapshot() == old(Snapshot())
    {
    }

    /** Install a freshly parsed inventory as all hosts and as the
        selection, and drop both the running job and the auto-load job. */
    method OnInventoryLoaded(data: string)
      modifies this`inventory, this`hostsAll, this`hostsPicked, this`job, this`jobOnload
      ensures inventory == Parse(data) && hostsAll == inventory && hostsPicked == inventory
      ensures job == None && jobOnload == None
    {
      inventory := Parse(data);
      hostsAll := inventory;
      hostsPicked := inventory;
      job := None;
      jobOnload := None;
    }

    /** Start the deploy interval and clear the log when the git ref and
        the inventory allow it; otherwise log a complaint. */
    method OnDeploy()
      modifies this`job, this`messages
      ensures CanDeploy(gitref, inventory) ==> job == Some(DeployJob) && messages == []
      ensures !CanDeploy(gitref, inventory) ==>
                job == old(job) && messages == old(messages) + [NoGitRefGiven]
    {
      if Utf8Len(gitref) > 3 && |inventory| > 0 {
        job := Some(DeployJob);
        messages := [];
      } else {
        messages := messages + [NoGitRefGiven];
      }
    }

    /** Take the job out of its slot (cancelling it if there was one) and
        log the abort. */
    method OnAbort()
      modifies this`job, this`messages
      ensures job == None && messages == old(messages) + [Aborted]
    {
      // `job.take()`: the slot is emptied whether or not it held a task;
      // cancelling the taken task is the timer service's business.
      job := None;
      messages := messages + [Aborted];
    }

    /** The one-shot timeout fired: log it and empty the slot. */
    method OnDone()
      modifies this`job, this`messages
      ensures job == None && messages == old(messages) + [DoneMessage]
    {
      messages := messages + [DoneMessage];
      job := None;
    }

    /** A deploy tick: log it and replace the job by the one-shot timeout
        that will deliver `Done`. */
    method OnInvokeProcess()
      modifies this`job, this`messages
      ensures job == Some(DoneJob) && messages == old(messages) + [InvokeProcessMessage]
    {
      messages := messages + [InvokeProcessMessage];
      job := Some(DoneJob);
    }

    method OnSetGitRef(ref: string)
      modifies this`gitref
      ensures gitref == ref
    {
      gitref := ref;
    }

    /** A change of the host list: only a `Select` replaces the selection. */
    method OnSetOrUnsetHost(change: ChangeData)
      modifies this`hostsPicked
      ensures hostsPicked == if change.Select? then change.selected else old(hostsPicked)
    {
      match change {
        case Select(selected) =>
          hostsPicked := selected;
        case Value(_) =>
        case Files(_) =>
      }
    }

    /** `update`: apply one message and ask for a re-render. */
    method Update(m: Msg) returns (render: bool)
      modifies this
      ensures render
      ensures Snapshot() == Step(old(Snapshot()), m)
    {
      match m {
        case InventoryLoad => OnInventoryLoad();
        case InventoryFetching => OnInventoryFetching();
        case InventoryLoaded(data) => OnInventoryLoaded(data);
        case Deploy => OnDeploy();
        case Abort => OnAbort();
        case Done => OnDone();
        case InvokeProcess => OnInvokeProcess();
        case SetGitRef(ref) => OnSetGitRef(ref);
        case SetOrUnsetHost(change) => OnSetOrUnsetHost(change);
      }
      render := true;
    }
  }
}
