/**
 * The three parties of a login together: greeter, daemon and PAM workers, joined by queues. Steps of
 * the three, of the daemon's timeout and shutdown tasks, and of the user interleave freely.
 */
module LoginSystem {
  import opened Wrappers
  import opened AuthMachine
  import opened GreeterFlow
  import P = PamConversation

  /** One call of the conversation callback: PAM's batch, and the slots filled so far. */
  datatype Batch = Batch(messages: seq<P.PamMessage>, start: nat, slots: seq<P.Slot>)

  /**
   * What PAM does next is an oracle's choice. `consumed` messages of the daemon's were read, `said` is
   * what was written to the daemon, `got` the answers read, in the order of the prompts, until `broken`:
   * a prompt could not be put, or was answered by a cancel, an unexpected message or end of file.
   * `batch` is the callback in progress and `done` holds the callbacks that gave PAM their response
   * array before that; a batch's `start` is the value of `consumed` when it began.
   */
  datatype Worker = Worker(
    consumed: nat,
    said: seq<FromWorker>,
    got: seq<Bytes>,
    asking: bool,
    broken: bool,
    batch: Option<Batch>,
    done: seq<Batch>)

  function NewWorker(): Worker {
    Worker(0, [], [], false, false, None, [])
  }

  /** `sent` holds every request the greeter wrote, `read` counts what it took from the daemon's side. */
  datatype World = World(d: Daemon, g: Greeter, sent: seq<Body>, read: nat, workers: seq<Worker>)

  datatype Act =
    | DaemonRuns(task: Label)
    | GreeterReads
    | GreeterLost
    | Login(entered: Bytes, command: string)
    | CancelClicked
    | PowerClicked
    | WorkerStarts(worker: SessionId)
    | PamCalls(worker: SessionId, messages: seq<P.PamMessage>)
    | WorkerAsks(worker: SessionId)
    | WorkerHears(worker: SessionId)
    | WorkerLosesDaemon(worker: SessionId)
    | PamGetsArray(worker: SessionId)
    | WorkerEnds(worker: SessionId, ready: bool, code: string)

  function Begin(timeout: int): World {
    World(Init(timeout), Fresh(), [], 0, [])
  }

  /** The daemon reads requests in the order they were sent, and each worker's messages in theirs. */
  predicate DaemonMay(w: World, l: Label) {
    && Wired(w.d) && Enabled(w.d, l)
    && match l
       case Receive(r, _) => r.id == |w.d.requests| < |w.sent| && r.body == w.sent[r.id]
       case WorkerSays(m, _) =>
         var s := Awaited(w.d.handler).value;
         m.Closed?
         || (Closed !in w.d.sessions[s].received
             && s < |w.workers| && |w.d.sessions[s].received| < |w.workers[s].said|
             && m == w.workers[s].said[|w.d.sessions[s].received|])
       case _ => true
  }

  predicate WorkerMay(w: World, k: SessionId, asking: bool, inBatch: bool) {
    && k < |w.workers| && k < |w.d.sessions|
    && w.workers[k].asking == asking && w.workers[k].batch.Some? == inBatch
  }

  predicate May(w: World, a: Act) {
    match a
    case DaemonRuns(l) => DaemonMay(w, l)
    case GreeterReads => !w.g.quit && w.read < |w.d.out|
    case GreeterLost => !w.d.open && w.read == |w.d.out|
    case Login(_, _) => !w.g.quit && w.g.call.NoCall?
    case CancelClicked => !w.g.quit && w.g.call.NoCall?
    case PowerClicked => !w.g.quit && w.g.call.NoCall?
    case WorkerStarts(k) => WorkerMay(w, k, false, false) && w.workers[k].consumed == 0 < |w.d.sessions[k].sent|
    case PamCalls(k, _) => WorkerMay(w, k, false, false) && w.workers[k].consumed > 0
    case WorkerAsks(k) =>
      WorkerMay(w, k, false, true) && |w.workers[k].batch.value.slots| < |w.workers[k].batch.value.messages|
    case WorkerHears(k) => WorkerMay(w, k, true, true) && InBatch(w.workers[k]) && w.workers[k].consumed < |w.d.sessions[k].sent|
    case WorkerLosesDaemon(k) =>
      WorkerMay(w, k, true, true) && w.workers[k].consumed == |w.d.sessions[k].sent| && w.d.sessions[k].closed
    case PamGetsArray(k) =>
      WorkerMay(w, k, false, true) && |w.workers[k].batch.value.slots| == |w.workers[k].batch.value.messages|
    case WorkerEnds(k, _, _) => WorkerMay(w, k, false, false) && w.workers[k].consumed > 0
  }

  /** The greeter's new state and the request it wrote, if any. */
  function Apply(w: World, step: (Greeter, Option<Body>)): World {
    w.(g := step.0, sent := if step.1.Some? then w.sent + [step.1.value] else w.sent)
  }

  /** The message of the batch whose slot is the next to be filled. */
  predicate InBatch(worker: Worker) {
    worker.batch.Some? && |worker.batch.value.slots| < |worker.batch.value.messages|
  }

  function NextMessage(worker: Worker): P.PamMessage
    requires InBatch(worker)
  {
    worker.batch.value.messages[|worker.batch.value.slots|]
  }

  /** The callback fails: PAM gets no array, and prompts and answers are no longer one to one. */
  function Broken(worker: Worker): Worker {
    worker.(asking := false, broken := true, batch := None)
  }

  /** `PromptBroker.ask` up to the blocking read. */
  function Asks(worker: Worker): Worker
    requires InBatch(worker)
  {
    var prompt := P.PromptFor(NextMessage(worker));
    if prompt.None? then Broken(worker)
    else worker.(said := worker.said + [Asked(Prompt(prompt.value.style, prompt.value.text))], asking := true)
  }

  /** `PromptBroker.ask` after its prompt was written: the next message decides. */
  function Hear(worker: Worker, m: ToWorker): Worker
    requires InBatch(worker)
  {
    var next := worker.(consumed := worker.consumed + 1, asking := false);
    if !m.Answer? then Broken(next)
    else
      var slots := worker.batch.value.slots + [P.SlotFor(NextMessage(worker), m.response)];
      next.(got := if worker.broken then worker.got else worker.got + [m.response],
            batch := Some(worker.batch.value.(slots := slots)))
  }

  /** The callback returns: PAM gets the response array. */
  function Return(worker: Worker): Worker
    requires worker.batch.Some?
  {
    worker.(batch := None, done := if worker.broken then worker.done else worker.done + [worker.batch.value])
  }

  function SetWorker(w: World, k: SessionId, worker: Worker): World
    requires k < |w.workers|
  {
    w.(workers := w.workers[k := worker])
  }

  function Do(w: World, a: Act): World
    requires May(w, a)
  {
    match a
    case DaemonRuns(l) =>
      var d := Step(w.d, l);
      w.(d := d, workers := if l.WorkerSpawned? then w.workers + [NewWorker()] else w.workers)
    case GreeterReads =>
      var Sent(m, delivered) := w.d.out[w.read];
      var n := w.(read := w.read + 1);
      if delivered then Apply(n, OnMessage(w.g, |w.sent|, m)) else n
    case GreeterLost => w.(g := Fresh().(quit := true))
    case Login(entered, command) => Apply(w, OnLogin(w.g, |w.sent|, entered, command))
    case CancelClicked => Apply(w, OnCancel(w.g, |w.sent|))
    case PowerClicked => Apply(w, OnPower(w.g, |w.sent|))
    case WorkerStarts(k) => SetWorker(w, k, w.workers[k].(consumed := 1))
    case PamCalls(k, messages) =>
      SetWorker(w, k, w.workers[k].(batch := Some(Batch(messages, w.workers[k].consumed, []))))
    case WorkerAsks(k) => SetWorker(w, k, Asks(w.workers[k]))
    case WorkerHears(k) => SetWorker(w, k, Hear(w.workers[k], w.d.sessions[k].sent[w.workers[k].consumed]))
    case WorkerLosesDaemon(k) => SetWorker(w, k, Broken(w.workers[k]))
    case PamGetsArray(k) => SetWorker(w, k, Return(w.workers[k]))
    case WorkerEnds(k, ready, code) =>
      SetWorker(w, k, w.workers[k].(said := w.workers[k].said + [if ready then IsReady else HasFailed(code)]))
  }

  /** Step number `n` of a play is the step of its act. */
  predicate Acts(states: seq<World>, acts: seq<Act>, n: nat) {
    && n < |acts| && n + 1 < |states|
    && May(states[n], acts[n])
    && states[n + 1] == Do(states[n], acts[n])
  }

  /** A play: the states the whole system goes through from the start, and what leads to each next one. */
  predicate Play(timeout: int, states: seq<World>, acts: seq<Act>) {
    && |states| == |acts| + 1
    && states[0] == Begin(timeout)
    && forall n {:trigger Acts(states, acts, n)} | 0 <= n < |acts| :: Acts(states, acts, n)
  }
}
