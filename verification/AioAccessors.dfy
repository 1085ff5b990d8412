// aio_file_accessor_t and aio_request_t in their imperative form; each method is one section of the C code, proved to be
// one step of the state machine.

module AioAccessors {
  import opened Common
  import opened Growth
  import opened AioProtocol

  class AioRequest {
    /** The request's number, in the order of aio_get_request. */
    const id: nat
    var buf: Ptr
    var aioBuf: Ptr
    var isAlloced: bool
    var status: Status
    var life: Life

    function View(): Request
      reads this
    {
      Request(buf, aioBuf, isAlloced, status, life)
    }

    constructor (id: nat)
      ensures this.id == id && View() == Request(Null, Null, false, Init, Fresh)
    {
      this.id := id;
      buf, aioBuf, isAlloced, status, life := Null, Null, false, Init, Fresh;
    }
  }

  function Views(rs: seq<AioRequest>): (v: seq<Request>)
    reads rs
    ensures |v| == |rs| && forall r | 0 <= r < |rs| :: v[r] == rs[r].View()
  {
    seq(|rs|, r requires 0 <= r < |rs| reads rs => rs[r].View())
  }

  predicate Numbered(rs: seq<AioRequest>) {
    forall r | 0 <= r < |rs| :: rs[r].id == r
  }

  function Entry(q: AioRequest?): Option<nat> {
    if q == null then None else Some(q.id)
  }

  class AioAccessor {
    var reqList: array<AioRequest?>
    var reqCount: u32

    /** All requests handed out. */
    var reqs: seq<AioRequest>
    /** The live blocks of the heap, each with the request it was allocated for. */
    var live: map<nat, nat>

    /** The run so far, and the objects it may change. */
    ghost var states: seq<State>
    ghost var steps: seq<Event>
    ghost var Repr: set<object>

    /** req_list[0..req_count]. */
    function Entries(): (es: seq<Option<nat>>)
      requires reqCount <= reqList.Length
      reads `reqList, `reqCount, reqList
      ensures |es| == reqCount && forall i | 0 <= i < reqCount :: es[i] == Entry(reqList[i])
    {
      var list := reqList[..reqCount];
      seq(|list|, i requires 0 <= i < |list| => Entry(list[i]))
    }

    function View(): State
      requires reqCount <= reqList.Length
      reads this, reqList, reqs
    {
      State(Views(reqs), live, Entries())
    }

    ghost predicate Valid()
      reads `reqs, `reqList, `reqCount, reqList
    {
      && Numbered(reqs)
      && reqCount <= MAX_SLOTS && Covers(reqList.Length, reqCount)
      && (forall i | 0 <= i < reqCount && reqList[i] != null :: reqList[i].id < |reqs| && reqs[reqList[i].id] == reqList[i])
    }

    ghost function Objects(): set<object>
      reads this
    {
      var rs: set<object> := set q | q in reqs;
      {this, reqList} + rs
    }

    /** The run so far, of an accessor in good order: its present state is the last of the run. */
    ghost function Run(): Option<(seq<State>, seq<Event>)>
      reads this, reqList, reqs
    {
      if Valid() && Repr == Objects() && IsRun(states, steps) && states[|steps|] == View() then Some((states, steps))
      else None
    }

    constructor ()
      ensures Run() == Some(([EMPTY], [])) && fresh(Repr)
    {
      reqList := new AioRequest?[0];
      reqCount, reqs, live := 0, [], map[];
      steps := [];
      new;
      assert View().reqs == [] && Entries() == [];
      states, Repr := [View()], Objects();
    }

    /** Adds a step just taken to the run. */
    ghost method Record(s: State, e: Event)
      requires Valid() && IsRun(states, steps) && states[|steps|] == s && Next(s, e) == Some(View())
      modifies `states, `steps, `Repr
      ensures Run().Some? && states == old(states) + [View()] && steps == old(steps) + [e] && Repr == Objects()
      ensures View() == old(View()) && Objects() == old(Objects())
    {
      RunExtends(states, steps, e);
      states, steps, Repr := states + [View()], steps + [e], Objects();
    }

    method GetRequest()
      requires Valid()
      modifies `reqs
      ensures Valid() && Next(old(View()), Get) == Some(View())
      ensures |reqs| == |old(reqs)| + 1 && reqs[..|old(reqs)|] == old(reqs) && fresh(reqs[|old(reqs)|])
    {
      var q := new AioRequest(|reqs|);
      ghost var before := Views(reqs);
      reqs := reqs + [q];
      assert Views(reqs) == before + [q.View()];
    }

    /** aio_request_alloc_write_buffer; None says that malloc failed every time. */
    method AllocWriteBuffer(r: nat, addr: Option<nat>)
      requires Valid() && Next(View(), Alloc(r, addr)).Some?
      modifies `live, reqs
      ensures Next(old(View()), Alloc(r, addr)) == Some(View())
    {
      var q := reqs[r];
      var p := if addr.Some? then Block(addr.value) else Null;
      if addr.Some? {
        live := live[addr.value := r];
      }
      q.buf, q.aioBuf, q.isAlloced := p, p, true;
      assert Views(reqs) == old(Views(reqs))[r := q.View()];
    }

    method ImportReadBuffer(r: nat)
      requires Valid() && Next(View(), Import(r)).Some?
      modifies reqs
      ensures Next(old(View()), Import(r)) == Some(View())
    {
      var q := reqs[r];
      q.buf, q.aioBuf := Callers, Callers;
      assert Views(reqs) == old(Views(reqs))[r := q.View()];
    }

    /** free of the C library; it ignores a null pointer. */
    method Free(p: Ptr)
      modifies `live
      ensures live == if p.Block? then old(live) - {p.addr} else old(live)
    {
      if p.Block? {
        live := live - {p.addr};
      }
    }

    /** The first part of aio_put_request: the operation is started, or its buffer is freed at once. */
    method StartIo(r: nat, ok: bool)
      requires Valid() && Next(View(), Start(r, ok)).Some?
      modifies `live, reqs
      ensures Next(old(View()), Start(r, ok)) == Some(View())
    {
      var q := reqs[r];
      if !ok && q.isAlloced {
        Free(q.aioBuf);
        q.buf, q.aioBuf := Null, Null;
      }
      q.life := if ok then Started else Refused;
      assert Views(reqs) == old(Views(reqs))[r := q.View()];
    }

    method MarkSubmitted(r: nat)
      requires Valid() && Next(View(), Mark(r)).Some?
      modifies reqs
      ensures Next(old(View()), Mark(r)) == Some(View())
    {
      var q := reqs[r];
      q.status := Submitted;
      q.life := if q.life.Started? then Marked else Rejected;
      assert Views(reqs) == old(Views(reqs))[r := q.View()];
    }

    /** The list grows by one page; nothing in it is lost. */
    method Grow()
      requires Valid() && reqCount % REQ_LIST_BUFSIZE == 0 && reqCount < MAX_SLOTS
      modifies `reqList
      ensures Valid() && fresh(reqList) && reqCount + REQ_LIST_BUFSIZE <= reqList.Length && Entries() == old(Entries())
    {
      GrowthBound(reqCount);
      ghost var before := reqList[..reqCount];
      reqList := Reallocated(reqList, reqCount, GrownBytes(reqCount) / POINTER_SIZE);
      assert forall i | 0 <= i < reqCount :: reqList[i] == before[i];
      assert Entries() == old(Entries());
    }

    /** The new entry; there is room for it. */
    method Append(q: AioRequest)
      requires Valid() && q.id < |reqs| && reqs[q.id] == q && reqCount < MAX_SLOTS
      requires reqCount % REQ_LIST_BUFSIZE == 0 ==> reqCount + REQ_LIST_BUFSIZE <= reqList.Length
      modifies `reqCount, reqList
      ensures Valid() && Entries() == old(Entries()) + [Some(q.id)]
    {
      NextCovered(reqList.Length, reqCount);
      reqList[reqCount] := q;
      reqCount := reqCount + 1;
      assert Entries() == old(Entries()) + [Some(q.id)];
    }

    method SetLife(r: nat, life: Life)
      requires r < |reqs| && Numbered(reqs)
      modifies reqs
      ensures Views(reqs) == old(Views(reqs))[r := old(Views(reqs))[r].(life := life)]
    {
      reqs[r].life := life;
      assert Views(reqs) == old(Views(reqs))[r := reqs[r].View()];
    }

    /** The last part of aio_put_request: the list grows by one page whenever its count is a multiple of the page, unless
        realloc fails. */
    method AddToList(r: nat, grown: bool)
      requires Valid() && Next(View(), List(r, grown)).Some?
      modifies `reqList, `reqCount, reqList, reqs
      ensures Valid() && (reqList == old(reqList) || fresh(reqList)) && reqs == old(reqs)
      ensures Next(old(View()), List(r, grown)) == Some(View())
    {
      ghost var s := View();
      if reqCount % REQ_LIST_BUFSIZE == 0 && !grown {
        SetLife(r, Unlisted);
      } else {
        if reqCount % REQ_LIST_BUFSIZE == 0 {
          Grow();
        }
        Append(reqs[r]);
        SetLife(r, Listed);
      }
    }

    /** aio_callback. */
    method Callback(r: nat, ok: bool)
      requires Valid() && Next(View(), Event.Callback(r, ok)).Some?
      modifies `live, reqs
      ensures Next(old(View()), Event.Callback(r, ok)) == Some(View())
    {
      var q := reqs[r];
      if ok {
        q.status := IoSuccess;
      }
      if q.isAlloced && q.buf != Null {
        Free(q.aioBuf);
        q.buf, q.aioBuf := Null, Null;
      }
      assert Views(reqs) == old(Views(reqs))[r := q.View()];
    }

    /** aio_cancel_request. */
    method CancelRequest(r: nat)
      requires Valid() && Next(View(), Event.Cancel(r)).Some?
      modifies `live, reqs
      ensures Next(old(View()), Event.Cancel(r)) == Some(View())
    {
      var q := reqs[r];
      if Cancellable(q.View()) {
        if q.isAlloced {
          Free(q.aioBuf);
          q.buf, q.aioBuf := Null, Null;
        }
        q.status := Status.Cancel;
      }
      assert Views(reqs) == old(Views(reqs))[r := q.View()];
    }

    /** One turn of the loop of aio_release_all_resources. */
    method ReleaseOne(i: nat)
      requires Valid() && Next(View(), ReleaseEntry(i)).Some?
      modifies `live, reqList, reqs
      ensures Valid() && Next(old(View()), ReleaseEntry(i)) == Some(View())
    {
      assert Entries()[i] == Entry(reqList[i]);
      if reqList[i] != null {
        FreeRequest(reqList[i].id);
      }
      ClearEntry(i);
    }

    method ClearEntry(i: nat)
      requires Valid() && i < reqCount
      modifies reqList
      ensures Valid() && Entries() == old(Entries())[i := None]
    {
      reqList[i] := null;
      assert Entries() == old(Entries())[i := None];
    }

    method FreeRequest(r: nat)
      requires Valid() && r < |reqs|
      modifies `live, reqs
      ensures Views(reqs) == old(Views(reqs))[r := old(Views(reqs))[r].Gone()]
      ensures var q := old(Views(reqs))[r];
              live == if q.isAlloced && q.buf.Block? then old(live) - {q.buf.addr} else old(live)
    {
      var q := reqs[r];
      if q.isAlloced && q.buf != Null {
        Free(q.buf);
        q.buf := Null;
      }
      q.life := Released;
      assert Views(reqs) == old(Views(reqs))[r := q.View()];
    }
  }
}
