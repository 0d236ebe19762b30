/**
  The sleeping barber: one barber process and any number of client processes that
  share a state block and a handful of semaphores.  Each process is a program
  counter; one step is one semaphore operation or one access to the shared block.
  A process whose next operation has to wait is blocked and does not move.
 */
module BarberShop {

  /** `Unset` is the zero-filled block before the barber first writes it. */
  datatype BarberState = Unset | Sleeping | Inviting | Cutting | Waking

  /** Where the barber is; the comment gives the statement it executes next. */
  datatype BarberPc =
    | SleepMark        // b_state = SLEEPING
    | SleepUnlock      // signal BARBER_STATE_LOCK
    | SleepWait        // wait CUSTOMER_AVAIL
    | WakeWaitSeated   // wait CURRENT_SEATED
    | WakeCheck        // assert seated_client > 0
    | CutLock          // wait BARBER_STATE_LOCK
    | CutCheck         // assert seated_client > 0
    | CutMark          // b_state = CUTTING
    | CutUnlock        // signal BARBER_STATE_LOCK
    | CutFinish        // signal FINISHED
    | CutWaitLeft      // wait LEFT
    | CutCheckEmpty    // assert seated_client <= 0
    | PeekLock         // wait BARBER_STATE_LOCK
    | Peek             // peek_queue() < 0 ?
    | InviteCheck      // assert seated_client <= 0
    | InviteMark       // b_state = INVITING
    | InviteUnlock     // signal BARBER_STATE_LOCK
    | PopLock          // wait QUEUE_LOCK
    | Pop              // next_client = pop_client()
    | PopUnlock        // signal QUEUE_LOCK
    | InviteOpen       // client_sem = get_client_sem(next_client)
    | InvitePost       // signal CLIENT_INVITED
    | InviteWaitSeated // wait CURRENT_SEATED
    | InviteCheckSame  // assert seated_client == next_client

  /** Where a client is. */
  datatype ClientPc =
    | Outside          // repeats == 0: exit; otherwise wait BARBER_STATE_LOCK
    | Look             // b_state == SLEEPING ?
    | WakeMark         // b_state = WAKING
    | WakeSignal       // signal CUSTOMER_AVAIL
    | WakeUnlock       // signal BARBER_STATE_LOCK
    | QueueLock        // wait QUEUE_LOCK
    | Count            // queue_length == chairs ?
    | FullUnlock       // signal BARBER_STATE_LOCK
    | FullUnlockQueue  // signal QUEUE_LOCK
    | Push             // push_client()
    | PushUnlockQueue  // signal QUEUE_LOCK
    | PushUnlock       // signal BARBER_STATE_LOCK
    | OpenSem          // client_sem = get_client_sem(getpid())
    | WaitInvited      // wait CLIENT_INVITED
    | RemoveSem        // remove_client_sem(getpid())
    | ChairLock        // wait BARBER_STATE_LOCK
    | ChairCheck       // assert seated_client <= 0
    | ChairTake        // seated_client = getpid()
    | ChairUnlock      // signal BARBER_STATE_LOCK
    | ChairSignal      // signal CURRENT_SEATED
    | WaitFinished     // wait FINISHED, --repeats
    | ChairLeave       // seated_client = -1
    | LeaveSignal      // signal LEFT
    | Exited

  datatype Client = Client(pc: ClientPc, repeats: int)

  /** `next` is the barber's local next_client. */
  datatype BarberProcess = BarberProcess(pc: BarberPc, next: int)

  /** The shared block and the semaphores. */
  datatype Shared = Shared(
    bState: BarberState,
    seated: int,
    queue: seq<int>,
    chairs: int,
    queueLock: nat,
    stateLock: nat,
    customerAvail: nat,
    currentSeated: nat,
    finished: nat,
    left: nat,
    invited: map<int, nat>)  // the per-client semaphores that exist

  datatype Shop = Shop(shared: Shared, barber: BarberProcess, clients: map<int, Client>)

  datatype Process = Barber | Customer(pid: int)

  const NO_CLIENT := -1

  /** Capacity of the shared array that holds the queue. */
  const MAX_QUEUE := 50

  predicate Initial(s: Shop) {
    && s.shared == Shared(Unset, NO_CLIENT, [], s.shared.chairs, 1, 0, 0, 0, 0, 0, map[])
    && s.barber == BarberProcess(SleepMark, NO_CLIENT)
    && forall c <- s.clients :: 0 < c && s.clients[c].pc == Outside
  }

  /** The shop as main leaves it, for clients that come `repeats` times each. */
  function Opened(chairs: int, repeats: map<int, int>): Shop {
    Shop(Shared(Unset, NO_CLIENT, [], chairs, 1, 0, 0, 0, 0, 0, map[]),
         BarberProcess(SleepMark, NO_CLIENT),
         map c <- repeats :: Client(Outside, repeats[c]))
  }

  lemma AnyShopCanOpen(chairs: int, repeats: map<int, int>)
    requires forall c <- repeats :: 0 < c
    ensures Initial(Opened(chairs, repeats))
  {
  }

  function PeekQueue(queue: seq<int>): int {
    if queue == [] then NO_CLIENT else queue[0]
  }

  /** Opening a client's semaphore creates it with value 0 unless it exists. */
  function OpenClientSem(invited: map<int, nat>, c: int): map<int, nat> {
    if c in invited then invited else invited[c := 0]
  }

  /** The barber's next step, or no change when he has to wait or an assertion of his fails. */
  function BarberMove(s: Shared, me: BarberProcess): (Shared, BarberProcess) {
    match me.pc
    case SleepMark => (s.(bState := Sleeping), me.(pc := SleepUnlock))
    case SleepUnlock => (s.(stateLock := s.stateLock + 1), me.(pc := SleepWait))
    case SleepWait =>
      if s.customerAvail == 0 then (s, me)
      else (s.(customerAvail := s.customerAvail - 1), me.(pc := WakeWaitSeated))
    case WakeWaitSeated =>
      if s.currentSeated == 0 then (s, me)
      else (s.(currentSeated := s.currentSeated - 1), me.(pc := WakeCheck))
    case WakeCheck => if s.seated > 0 then (s, me.(pc := CutLock)) else (s, me)
    case CutLock =>
      if s.stateLock == 0 then (s, me)
      else (s.(stateLock := s.stateLock - 1), me.(pc := CutCheck))
    case CutCheck => if s.seated > 0 then (s, me.(pc := CutMark)) else (s, me)
    case CutMark => (s.(bState := Cutting), me.(pc := CutUnlock))
    case CutUnlock => (s.(stateLock := s.stateLock + 1), me.(pc := CutFinish))
    case CutFinish => (s.(finished := s.finished + 1), me.(pc := CutWaitLeft))
    case CutWaitLeft =>
      if s.left == 0 then (s, me)
      else (s.(left := s.left - 1), me.(pc := CutCheckEmpty))
    case CutCheckEmpty => if s.seated <= 0 then (s, me.(pc := PeekLock)) else (s, me)
    case PeekLock =>
      if s.stateLock == 0 then (s, me)
      else (s.(stateLock := s.stateLock - 1), me.(pc := Peek))
    case Peek => (s, me.(pc := if PeekQueue(s.queue) < 0 then SleepMark else InviteCheck))
    case InviteCheck => if s.seated <= 0 then (s, me.(pc := InviteMark)) else (s, me)
    case InviteMark => (s.(bState := Inviting), me.(pc := InviteUnlock))
    case InviteUnlock => (s.(stateLock := s.stateLock + 1), me.(pc := PopLock))
    case PopLock =>
      if s.queueLock == 0 then (s, me)
      else (s.(queueLock := s.queueLock - 1), me.(pc := Pop))
    case Pop =>
      if s.queue == [] then (s, BarberProcess(PopUnlock, NO_CLIENT))
      else (s.(queue := s.queue[1..]), BarberProcess(PopUnlock, s.queue[0]))
    case PopUnlock => (s.(queueLock := s.queueLock + 1), me.(pc := InviteOpen))
    case InviteOpen => (s.(invited := OpenClientSem(s.invited, me.next)), me.(pc := InvitePost))
    case InvitePost =>
      // a post to a semaphore whose name is gone reaches nobody
      if me.next in s.invited
      then (s.(invited := s.invited[me.next := s.invited[me.next] + 1]), me.(pc := InviteWaitSeated))
      else (s, me.(pc := InviteWaitSeated))
    case InviteWaitSeated =>
      if s.currentSeated == 0 then (s, me)
      else (s.(currentSeated := s.currentSeated - 1), me.(pc := InviteCheckSame))
    case InviteCheckSame => if s.seated == me.next then (s, me.(pc := CutLock)) else (s, me)
  }

  /** The next step of client `c`, or no change when it has to wait, has exited or fails an assertion. */
  function ClientMove(s: Shared, c: int, me: Client): (Shared, Client)
  {
    match me.pc
    case Outside =>
      if me.repeats == 0 then (s, me.(pc := Exited))
      else if s.stateLock == 0 then (s, me)
      else (s.(stateLock := s.stateLock - 1), me.(pc := Look))
    case Look => (s, me.(pc := if s.bState == Sleeping then WakeMark else QueueLock))
    case WakeMark => (s.(bState := Waking), me.(pc := WakeSignal))
    case WakeSignal => (s.(customerAvail := s.customerAvail + 1), me.(pc := WakeUnlock))
    case WakeUnlock => (s.(stateLock := s.stateLock + 1), me.(pc := ChairLock))
    case QueueLock =>
      if s.queueLock == 0 then (s, me)
      else (s.(queueLock := s.queueLock - 1), me.(pc := Count))
    case Count => (s, me.(pc := if |s.queue| == s.chairs then FullUnlock else Push))
    case FullUnlock => (s.(stateLock := s.stateLock + 1), me.(pc := FullUnlockQueue))
    case FullUnlockQueue => (s.(queueLock := s.queueLock + 1), me.(pc := Outside))
    case Push => (s.(queue := s.queue + [c]), me.(pc := PushUnlockQueue))
    case PushUnlockQueue => (s.(queueLock := s.queueLock + 1), me.(pc := PushUnlock))
    case PushUnlock => (s.(stateLock := s.stateLock + 1), me.(pc := OpenSem))
    case OpenSem => (s.(invited := OpenClientSem(s.invited, c)), me.(pc := WaitInvited))
    case WaitInvited =>
      if c !in s.invited || s.invited[c] == 0 then (s, me)
      else (s.(invited := s.invited[c := s.invited[c] - 1]), me.(pc := RemoveSem))
    case RemoveSem => (s.(invited := s.invited - {c}), me.(pc := ChairLock))
    case ChairLock =>
      if s.stateLock == 0 then (s, me)
      else (s.(stateLock := s.stateLock - 1), me.(pc := ChairCheck))
    case ChairCheck => if s.seated <= 0 then (s, me.(pc := ChairTake)) else (s, me)
    case ChairTake => (s.(seated := c), me.(pc := ChairUnlock))
    case ChairUnlock => (s.(stateLock := s.stateLock + 1), me.(pc := ChairSignal))
    case ChairSignal => (s.(currentSeated := s.currentSeated + 1), me.(pc := WaitFinished))
    case WaitFinished =>
      if s.finished == 0 then (s, me)
      else (s.(finished := s.finished - 1), Client(ChairLeave, me.repeats - 1))
    case ChairLeave => (s.(seated := NO_CLIENT), me.(pc := LeaveSignal))
    case LeaveSignal => (s.(left := s.left + 1), me.(pc := Outside))
    case Exited => (s, me)
  }

  /** One turn of process `p`: nothing happens when it is blocked. */
  function Step(s: Shop, p: Process): Shop {
    match p
    case Barber =>
      var (shared, me) := BarberMove(s.shared, s.barber);
      s.(shared := shared, barber := me)
    case Customer(c) =>
      if c !in s.clients then s else
      var (shared, me) := ClientMove(s.shared, c, s.clients[c]);
      s.(shared := shared, clients := s.clients[c := me])
  }

  predicate CanMove(s: Shop, p: Process) {
    Step(s, p) != s
  }

  /** The state after the turns of `schedule`; an interleaving is exactly such a schedule. */
  function Run(s: Shop, schedule: seq<Process>): Shop {
    if schedule == [] then s
    else Step(Run(s, schedule[..|schedule| - 1]), schedule[|schedule| - 1])
  }

  lemma {:induction false} RunConcat(s: Shop, a: seq<Process>, b: seq<Process>)
    ensures Run(s, a + b) == Run(Run(s, a), b)
  {
    if b == [] {
      assert a + b == a;
    } else {
      RunConcat(s, a, b[..|b| - 1]);
      assert (a + b)[..|a + b| - 1] == a + b[..|b| - 1];
    }
  }
}
