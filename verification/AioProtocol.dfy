// The AIO accessor as a state machine: who frees the buffer of a request, and what the request list holds.

module AioProtocol {
  import opened Common
  import Growth

  /** A buffer pointer: null, a block from malloc, or memory of the caller's. */
  datatype Ptr = Null | Block(addr: nat) | Callers

  /** How far a request has come: through aio_put_request (aio_read or aio_write called, SUBMITTED written, listed) and
      up to its release. Refused and Rejected: the operation could not be started. Unlisted: the list could not grow. */
  datatype Life = Fresh | Started | Marked | Listed | Unlisted | Refused | Rejected | Released {
    predicate InFlight() {
      Started? || Marked? || Listed? || Unlisted?
    }
  }

  /** aio_request_t; aioBuf is cb.aio_buf. */
  datatype Request = Request(buf: Ptr, aioBuf: Ptr, isAlloced: bool, status: Status, life: Life) {
    function Owns(): Option<nat> {
      if buf.Block? then Some(buf.addr) else None
    }

    /** The release frees a buffer that is still there, and the request itself. */
    function Gone(): Request {
      this.(buf := if isAlloced && buf != Null then Null else buf, life := Released)
    }

    /** free(aio_buf), then both pointers are null. */
    function Dropped(): Request {
      this.(buf := Null, aioBuf := Null)
    }
  }

  /** live lists the blocks of the heap with the request each was allocated for; list is req_list[0..req_count]. */
  datatype State = State(reqs: seq<Request>, live: map<nat, nat>, list: seq<Option<nat>>)

  datatype Event =
    | Get
    | Alloc(r: nat, addr: Option<nat>)
    | Import(r: nat)
    | Start(r: nat, ok: bool)
    | Mark(r: nat)
    | List(r: nat, grown: bool)
    | Callback(r: nat, ok: bool)
    | Cancel(r: nat)
    | ReleaseEntry(i: nat)

  predicate Enabled(s: State, e: Event) {
    match e
    case Get => true
    case Alloc(r, addr) => r < |s.reqs| && s.reqs[r].life.Fresh? && (addr.Some? ==> addr.value !in s.live)
    case Import(r) => r < |s.reqs| && s.reqs[r].life.Fresh?
    case Start(r, _) => r < |s.reqs| && s.reqs[r].life.Fresh?
    case Mark(r) => r < |s.reqs| && (s.reqs[r].life.Started? || s.reqs[r].life.Refused?)
    case List(r, _) => r < |s.reqs| && s.reqs[r].life.Marked? && |s.list| < Growth.MAX_SLOTS
    case Callback(r, _) => r < |s.reqs| && s.reqs[r].life.InFlight()
    case Cancel(r) => r < |s.reqs| && !s.reqs[r].life.Released?
    case ReleaseEntry(i) => i < |s.list| && (s.list[i].Some? ==> s.list[i].value < |s.reqs|)
  }

  /** The request a step works on. */
  function Target(s: State, e: Event): (r: Option<nat>)
    requires Enabled(s, e)
    ensures r.Some? ==> r.value < |s.reqs|
  {
    match e
    case Get => None
    case ReleaseEntry(i) => s.list[i]
    case _ => Some(e.r)
  }

  /** aio_cancel_request goes ahead only between INIT and CANCEL. */
  predicate Cancellable(q: Request) {
    q.status == Submitted || q.status == IoSuccess || q.status == IoFail
  }

  /** The pointer a step passes to free; free of a null pointer does nothing. */
  function FreeArg(s: State, e: Event): Ptr
    requires Enabled(s, e)
  {
    if Target(s, e).None? then Null
    else
      var q := s.reqs[Target(s, e).value];
      match e
      case Start(_, ok) => if !ok && q.isAlloced then q.aioBuf else Null
      case Callback(_, _) => if q.isAlloced && q.buf != Null then q.aioBuf else Null
      case Cancel(_) => if Cancellable(q) && q.isAlloced then q.aioBuf else Null
      case ReleaseEntry(_) => if q.isAlloced && q.buf != Null then q.buf else Null
      case _ => Null
  }

  /** The list cannot take the request: it is full and realloc fails. */
  predicate NoRoom(s: State, e: Event) {
    e.List? && |s.list| % Growth.REQ_LIST_BUFSIZE == 0 && !e.grown
  }

  function RequestStep(s: State, e: Event): Request
    requires Enabled(s, e) && Target(s, e).Some?
  {
    var q := s.reqs[Target(s, e).value];
    match e
    case Alloc(_, addr) =>
      var p := if addr.Some? then Block(addr.value) else Null;
      q.(buf := p, aioBuf := p, isAlloced := true)
    case Import(_) => q.(buf := Callers, aioBuf := Callers)
    case Start(_, ok) => (if !ok && q.isAlloced then q.Dropped() else q).(life := if ok then Started else Refused)
    case Mark(_) => q.(status := Submitted, life := if q.life.Started? then Marked else Rejected)
    case List(_, _) => q.(life := if NoRoom(s, e) then Unlisted else Listed)
    case Callback(_, ok) =>
      (if q.isAlloced && q.buf != Null then q.Dropped() else q).(status := if ok then IoSuccess else q.status)
    case Cancel(_) =>
      if !Cancellable(q) then q else (if q.isAlloced then q.Dropped() else q).(status := Status.Cancel)
    case ReleaseEntry(_) => q.Gone()
  }

  function HeapStep(s: State, e: Event): map<nat, nat>
    requires Enabled(s, e)
  {
    if e.Alloc? && e.addr.Some? then s.live[e.addr.value := e.r]
    else if FreeArg(s, e).Block? then s.live - {FreeArg(s, e).addr}
    else s.live
  }

  function ListStep(s: State, e: Event): seq<Option<nat>>
    requires Enabled(s, e)
  {
    if e.List? && !NoRoom(s, e) then s.list + [Some(e.r)]
    else if e.ReleaseEntry? then s.list[e.i := None]
    else s.list
  }

  function Step(s: State, e: Event): State
    requires Enabled(s, e)
  {
    State(if e.Get? then s.reqs + [Request(Null, Null, false, Init, Fresh)]
          else if Target(s, e).Some? then s.reqs[Target(s, e).value := RequestStep(s, e)]
          else s.reqs,
          HeapStep(s, e),
          ListStep(s, e))
  }

  function Next(s: State, e: Event): Option<State> {
    if Enabled(s, e) then Some(Step(s, e)) else None
  }

  const EMPTY: State := State([], map[], [])

  ghost predicate StepAt(ss: seq<State>, es: seq<Event>, k: nat)
    requires k < |es| < |ss|
  {
    Next(ss[k], es[k]) == Some(ss[k + 1])
  }

  ghost predicate IsRun(ss: seq<State>, es: seq<Event>) {
    && |ss| == |es| + 1 && ss[0] == EMPTY
    && (forall k: nat | k < |es| :: StepAt(ss, es, k))
  }

  lemma RunExtends(ss: seq<State>, es: seq<Event>, e: Event)
    requires IsRun(ss, es) && Next(ss[|es|], e).Some?
    ensures IsRun(ss + [Next(ss[|es|], e).value], es + [e])
  {
    var ss', es' := ss + [Next(ss[|es|], e).value], es + [e];
    forall k: nat | k < |es'|
      ensures StepAt(ss', es', k)
    {
      if k < |es| {
        assert StepAt(ss, es, k);
      }
    }
  }
}
