/**
 * The kernel side the allocator talks to: the process's descriptor table
 * and the ION allocation interface (`ion_open`, `ion_alloc_fd`, `close`).
 * Whether the kernel grants an allocation is nondeterministic here: the
 * allocator must be right whatever the kernel answers. Descriptor numbers
 * come from a counter, so a number is never handed out twice.
 */
module Ion {

  /** What an open descriptor refers to: the ION device, or a buffer. */
  datatype Kind = Connection | Buffer

  /** One call of `ion_alloc_fd`, with the arguments it was given. */
  datatype Request = Request(conn: int, size: int, align: int, heapMask: bv32, flags: bv32)

  /** The open descriptors that are ION connections. */
  function Connections(fds: map<int, Kind>): (c: set<int>)
    ensures forall fd :: fd in c <==> fd in fds && fds[fd] == Connection
  {
    set fd | fd in fds && fds[fd] == Connection
  }

  /** `fds` with every descriptor of `s` opened as a buffer. */
  function AddBuffers(fds: map<int, Kind>, s: set<int>): (r: map<int, Kind>)
    ensures r.Keys == fds.Keys + s
    ensures forall fd :: fd in s ==> r[fd] == Buffer
    ensures forall fd :: fd in fds && fd !in s ==> r[fd] == fds[fd]
  {
    map fd | fd in fds.Keys + s :: if fd in s then Buffer else fds[fd]
  }

  class Kernel {
    /** The process's open descriptors. */
    var fds: map<int, Kind>
    /** Every allocation request made so far, in order. */
    var requests: seq<Request>
    /** The kernel's answer to each request: granted or refused. */
    var answers: seq<bool>
    /** Lowest descriptor number the kernel has never handed out. */
    var next: int

    /** Every request has its answer, and every open descriptor is below `next`, so `next` is free. */
    ghost predicate Valid()
      reads this
    {
      |answers| == |requests| && next >= 0 && forall fd :: fd in fds ==> 0 <= fd < next
    }

    constructor ()
      ensures Valid()
      ensures fds == map[] && requests == [] && answers == []
    {
      fds := map[];
      requests := [];
      answers := [];
      next := 0;
    }

    /** `ion_open`: a new connection, or a negative error with nothing opened. */
    method Open() returns (fd: int)
      requires Valid()
      modifies this
      ensures Valid()
      ensures fd >= 0 ==> fd !in old(fds) && fds == old(fds)[fd := Connection]
      ensures fd < 0 ==> fds == old(fds)
      ensures requests == old(requests) && answers == old(answers)
    {
      var ok: bool :| true;
      if ok {
        fd := next;
        next := next + 1;
        fds := fds[fd := Connection];
      } else {
        fd :| fd < 0;
      }
    }

    /**
     * `ion_alloc_fd(conn, size, align, heapMask, flags, &slot)`: either a
     * fresh buffer descriptor and 0, or a negative error with nothing opened
     * and `slot` left as the caller had it. The request and the answer are
     * logged. It cannot succeed on a
     * descriptor that is not an open ION connection.
     */
    method AllocFd(conn: int, size: int, align: int, heapMask: bv32, flags: bv32, slot: int)
      returns (err: int, fd: int)
      requires Valid()
      modifies this
      ensures Valid()
      ensures requests == old(requests) + [Request(conn, size, align, heapMask, flags)]
      ensures answers == old(answers) + [err == 0]
      ensures err <= 0
      ensures conn !in Connections(old(fds)) ==> err < 0
      ensures err == 0 ==> fd >= 0 && fd !in old(fds) && fds == old(fds)[fd := Buffer]
      ensures err < 0 ==> fd == slot && fds == old(fds)
    {
      requests := requests + [Request(conn, size, align, heapMask, flags)];
      var ok: bool :| true;
      if ok && conn in Connections(fds) {
        fd := next;
        next := next + 1;
        fds := fds[fd := Buffer];
        err := 0;
      } else {
        err :| err < 0;
        fd := slot;
      }
      answers := answers + [err == 0];
    }

    /** `close(fd)`; closing a descriptor that is not open changes nothing. */
    method Close(fd: int)
      requires Valid()
      modifies this
      ensures Valid()
      ensures fds == old(fds) - {fd}
      ensures requests == old(requests) && answers == old(answers)
    {
      fds := fds - {fd};
    }
  }
}
