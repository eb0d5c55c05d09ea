// The controller as a step system: workers, the queue, one status loop per
// dispatched or child event, and handlers that send on the event's channel,
// all interleaved.
module Controller {
  import opened Wrappers
  import opened WorkQueue
  import opened EventStatus

  datatype Chan = Chan(
    buf: seq<Status>,    // at most BUFFER_SIZE
    closed: bool,
    sent: seq<Status>,   // everything ever sent on it
    forChild: bool,
    hasProducer: bool,   // given to a handler
    hasLoop: bool,       // ranged over by a status loop
    parent: nat, index: nat,  // for a child: announced by status index of channel parent
    start: nat)          // for an attempt: the item's retry count when it began

  // An InformerCacheObj.
  datatype Item = Item(
    retryCount: nat,
    chan: nat,             // statusChan
    child: bool,
    dispatched: nat,       // attempts so far
    asks: seq<Status>,     // retry requests as the callback got them
    gaveUp: bool,          // a request was answered with MaxRetryReached
    silent: nat)           // attempts that ended without asking for a retry

  // The goroutine of handleStatus.
  datatype Loop = Loop(
    item: nat, chan: nat, running: bool,
    start: nat,              // the item's retry count when the loop began
    consumed: seq<Status>,
    callbacks: seq<Status>)

  // A handler working on one channel; open until it has closed it.
  datatype Producer = Producer(chan: nat, open: bool)

  datatype Worker = Syncing | Ready | Busy(producer: nat) | Draining | Exited

  datatype State = State(
    chans: seq<Chan>, items: seq<Item>, loops: seq<Loop>, producers: seq<Producer>,
    queue: Queue, delayed: set<nat>, workers: seq<Worker>)

  function Initial(workers: nat): State {
    State([], [], [], [], EMPTY, {}, seq(workers, _ => Syncing))
  }

  datatype Action =
    | Inform                          // the informer delivers an event
    | Sync(w: nat) | SyncFails(w: nat)
    | Dispatch(w: nat)                // Get, then processItem starts
    | Release(w: nat)                 // processItem returns
    | Quit(w: nat) | Exit(w: nat)
    | Send(p: nat, m: Status)
    | SendChild(p: nat)
    | Close(p: nat)
    | Receive(l: nat)                 // one turn of a status loop
    | End(l: nat)                     // channel closed and drained
    | Fire(x: nat)                    // a delayed add falls due
    | ShutDownQueue                   // the informer has stopped

  // ---------- when a step can happen ----------

  predicate CanSend(s: State, p: nat) {
    p < |s.producers| && s.producers[p].open
    && s.producers[p].chan < |s.chans|
    && !s.chans[s.producers[p].chan].closed
    && |s.chans[s.producers[p].chan].buf| < BUFFER_SIZE
  }

  // What is asked of handlers. Children never ask for a retry. Beyond that:
  // nothing; or that no attempt gets two requests granted with one of them for
  // later; or that no attempt asks twice.
  datatype Contract = Free | Calm | Once

  predicate MaySend(s: State, p: nat, m: Status, contract: Contract)
    requires CanSend(s, p)
  {
    var c := s.chans[s.producers[p].chan];
    && m.kind != CreateChild && (c.forChild ==> !AsksRetry(m))
    && (contract.Calm? ==> Harmless(ReAdds(c.sent + [m], c.start)))
    && (contract.Once? && AsksRetry(m) ==> Asks(c.sent) == 0)
  }

  predicate CanReceive(s: State, l: nat) {
    l < |s.loops| && s.loops[l].running && s.loops[l].chan < |s.chans| && s.chans[s.loops[l].chan].buf != []
    && s.loops[l].item < |s.items|
  }

  predicate CanEnd(s: State, l: nat) {
    l < |s.loops| && s.loops[l].running && s.loops[l].chan < |s.chans| && s.loops[l].item < |s.items|
    && s.chans[s.loops[l].chan].closed && s.chans[s.loops[l].chan].buf == []
  }

  predicate Enabled(s: State, a: Action, contract: Contract) {
    match a
    case Inform => true
    case Sync(w) => w < |s.workers| && s.workers[w].Syncing?
    case SyncFails(w) => w < |s.workers| && s.workers[w].Syncing?
    case Dispatch(w) =>
      w < |s.workers| && s.workers[w].Ready? && s.queue.items != [] && s.queue.items[0] < |s.items|
      && s.items[s.queue.items[0]].chan < |s.chans|
    case Release(w) => w < |s.workers| && s.workers[w].Busy?
    case Quit(w) => w < |s.workers| && s.workers[w].Ready? && Quits(s.queue)
    case Exit(w) => w < |s.workers| && s.workers[w].Draining? && Drained(s.queue)
    case Send(p, m) => CanSend(s, p) && MaySend(s, p, m, contract)
    case SendChild(p) => CanSend(s, p)
    case Close(p) =>
      p < |s.producers| && s.producers[p].open && s.producers[p].chan < |s.chans|
      && !s.chans[s.producers[p].chan].closed
    case Receive(l) => CanReceive(s, l)
    case End(l) => CanEnd(s, l)
    case Fire(x) => x in s.delayed
    case ShutDownQueue => !s.queue.shuttingDown
  }

  // A handler about to send on, or close, a channel that is already closed.
  predicate Panics(s: State, p: nat) {
    p < |s.producers| && s.producers[p].open
    && s.producers[p].chan < |s.chans| && s.chans[s.producers[p].chan].closed
  }

  // ---------- what a step does ----------

  function NewChan(): Chan { Chan([], false, [], false, false, false, 0, 0, 0) }

  // Given to the child's handler at once.
  function NewChildChan(parent: nat, index: nat): Chan { Chan([], false, [], true, true, false, parent, index, 0) }

  function DoInform(s: State): State {
    s.(chans := s.chans + [NewChan()],
       items := s.items + [Item(0, |s.chans|, false, 0, [], false, 0)],
       queue := Add(s.queue, |s.items|))
  }

  function DoDispatch(s: State, w: nat): State
    requires Enabled(s, Dispatch(w), Free)
  {
    var x := s.queue.items[0];
    var item := s.items[x];
    s.(queue := Get(s.queue),
       items := s.items[x := item.(dispatched := item.dispatched + 1)],
       loops := s.loops + [Loop(x, item.chan, true, item.retryCount, [], [])],
       producers := s.producers + [Producer(item.chan, true)],
       chans := s.chans[item.chan := s.chans[item.chan].(hasProducer := true, hasLoop := true, start := item.retryCount)],
       workers := s.workers[w := Busy(|s.producers|)])
  }

  function Put(c: Chan, m: Status): Chan { c.(buf := c.buf + [m], sent := c.sent + [m]) }

  function DoSend(s: State, p: nat, m: Status): State
    requires CanSend(s, p)
  {
    var c := s.producers[p].chan;
    s.(chans := s.chans[c := Put(s.chans[c], m)])
  }

  function ChildStatus(chan: nat): Status {
    WithStatus(NewEventProcessStatus(), CreateChild).(childChan := Some(chan))
  }

  // CreateChildEvent: the child's channel is made, announced on the parent's,
  // and handed to the child's handler.
  function DoSendChild(s: State, p: nat): State
    requires CanSend(s, p)
  {
    var c := s.producers[p].chan;
    s.(chans := s.chans[c := Put(s.chans[c], ChildStatus(|s.chans|))] + [NewChildChan(c, |s.chans[c].sent|)],
       producers := s.producers + [Producer(|s.chans|, true)])
  }

  function DoClose(s: State, p: nat): State
    requires p < |s.producers| && s.producers[p].chan < |s.chans|
  {
    var c := s.producers[p].chan;
    s.(chans := s.chans[c := s.chans[c].(closed := true)],
       producers := s.producers[p := Producer(c, false)])
  }

  // The loop takes the oldest status off its channel.
  function DoTake(s: State, l: nat): State
    requires CanReceive(s, l)
  {
    var loop := s.loops[l];
    var c := s.chans[loop.chan];
    s.(chans := s.chans[loop.chan := c.(buf := c.buf[1..])],
       loops := s.loops[l := loop.(consumed := loop.consumed + [c.buf[0]])])
  }

  function DoNotify(s: State, l: nat, x: nat, st: Status, asked: bool): State
    requires l < |s.loops| && x < |s.items|
  {
    var item := s.items[x];
    s.(loops := s.loops[l := s.loops[l].(callbacks := s.loops[l].callbacks + [st])],
       items := if asked then s.items[x := item.(asks := item.asks + [st], gaveUp := true)] else s.items)
  }

  function DoRetry(s: State, l: nat, x: nat, st: Status, later: bool): State
    requires l < |s.loops| && x < |s.items|
  {
    var item := s.items[x];
    s.(loops := s.loops[l := s.loops[l].(callbacks := s.loops[l].callbacks + [st])],
       items := s.items[x := item.(asks := item.asks + [st], retryCount := item.retryCount + 1, chan := |s.chans|)],
       chans := s.chans + [NewChan()],
       queue := if later then s.queue else Add(s.queue, x),
       delayed := if later && !s.queue.shuttingDown then s.delayed + {x} else s.delayed)
  }

  // The loop starts another loop on the child's channel.
  function DoAdopt(s: State, x: nat, chan: nat): State
    requires x < |s.items| && chan < |s.chans|
  {
    s.(items := s.items + [Item(s.items[x].retryCount, chan, true, 1, [], false, 0)],
       loops := s.loops + [Loop(|s.items|, chan, true, s.items[x].retryCount, [], [])],
       chans := s.chans[chan := s.chans[chan].(hasLoop := true)])
  }

  function DoReceive(s: State, l: nat): State
    requires CanReceive(s, l)
  {
    var x := s.loops[l].item;
    var m := s.chans[s.loops[l].chan].buf[0];
    var t := DoTake(s, l);
    match EffectOf(m, s.items[x].retryCount)
    case NewChild(chan) => if chan.Some? && chan.value < |t.chans| then DoAdopt(t, x, chan.value) else t
    case Silent => t
    case Notify(st) => DoNotify(t, l, x, st, AsksRetry(m))
    case NotifyAndRetry(st, later) => DoRetry(t, l, x, st, later)
  }

  function DoEnd(s: State, l: nat): State
    requires CanEnd(s, l)
  {
    var loop := s.loops[l];
    var item := s.items[loop.item];
    s.(loops := s.loops[l := loop.(running := false)],
       items := if Asks(loop.consumed) == 0 then s.items[loop.item := item.(silent := item.silent + 1)] else s.items,
       queue := Done(s.queue, loop.item))
  }

  function SetWorker(s: State, w: nat, worker: Worker): State
    requires w < |s.workers|
  {
    s.(workers := s.workers[w := worker])
  }

  function Step(s: State, a: Action): State
    requires Enabled(s, a, Free)
  {
    match a
    case Inform => DoInform(s)
    case Sync(w) => SetWorker(s, w, Ready)
    case SyncFails(w) => SetWorker(s, w, Exited)
    case Dispatch(w) => DoDispatch(s, w)
    case Release(w) => SetWorker(s, w, Ready)
    case Quit(w) => SetWorker(s.(queue := ShutDownWithDrain(s.queue)), w, Draining)
    case Exit(w) => SetWorker(s, w, Exited)
    case Send(p, m) => DoSend(s, p, m)
    case SendChild(p) => DoSendChild(s, p)
    case Close(p) => DoClose(s, p)
    case Receive(l) => DoReceive(s, l)
    case End(l) => DoEnd(s, l)
    case Fire(x) => s.(delayed := s.delayed - {x}, queue := Add(s.queue, x))
    case ShutDownQueue => s.(queue := ShutDown(s.queue))
  }

  predicate AllEnabled(s: State, actions: seq<Action>, contract: Contract)
    decreases |actions|
  {
    actions == [] ||
    (Enabled(s, actions[0], contract) && Enabled(s, actions[0], Free)
     && AllEnabled(Step(s, actions[0]), actions[1..], contract))
  }

  function Run(s: State, actions: seq<Action>, contract: Contract): State
    requires AllEnabled(s, actions, contract)
    decreases |actions|
  {
    if actions == [] then s else Run(Step(s, actions[0]), actions[1..], contract)
  }
}
