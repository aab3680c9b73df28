/**
 * The process-wide device context: a count of attached clients and the ION
 * connection they share. The first client to attach opens the connection,
 * the last one to detach closes it, and detaching with no client attached
 * is fatal.
 *
 * `Lifecycle` is the abstract state; `PrivateModule` is the record the
 * allocator updates in place, and its methods are proved to move its
 * abstract state by `Attach` and `Detach`.
 */
module Device {
  import opened Defs
  import opened Ion

  /** Clients attached, and whether the shared ION connection is open. */
  datatype Lifecycle = Lifecycle(clients: nat, connected: bool)

  const Idle: Lifecycle := Lifecycle(0, false)

  /** A client attaches; the first one opens the connection, which succeeds iff `connects`. */
  function Attach(s: Lifecycle, connects: bool): Lifecycle {
    if s.clients == 0 then Lifecycle(1, connects) else Lifecycle(s.clients + 1, s.connected)
  }

  /** A client detaches; the last one closes the connection. */
  function Detach(s: Lifecycle): Lifecycle
    requires s.clients > 0
  {
    Lifecycle(s.clients - 1, s.connected && s.clients > 1)
  }

  /** A client call on the device context. */
  datatype ClientOp = OpenClient(connects: bool) | CloseClient

  /** The state after `ops`, or `None` if some close finds no client attached (the fatal case). */
  function Run(s: Lifecycle, ops: seq<ClientOp>): Option<Lifecycle>
    decreases |ops|
  {
    if ops == [] then Some(s)
    else match ops[0]
      case OpenClient(connects) => Run(Attach(s, connects), ops[1..])
      case CloseClient => if s.clients == 0 then None else Run(Detach(s), ops[1..])
  }

  function Opens(ops: seq<ClientOp>): nat {
    if ops == [] then 0 else (if ops[0].OpenClient? then 1 else 0) + Opens(ops[1..])
  }

  function Closes(ops: seq<ClientOp>): nat {
    if ops == [] then 0 else (if ops[0].CloseClient? then 1 else 0) + Closes(ops[1..])
  }

  /** No connection is left open once every client has gone. */
  predicate Coherent(s: Lifecycle) {
    s.clients == 0 ==> !s.connected
  }

  /** Starting with `n` clients, no prefix of `ops` closes more clients than are attached. */
  predicate NeverUnderflows(n: nat, ops: seq<ClientOp>) {
    forall k :: 0 <= k <= |ops| ==> Closes(ops[..k]) <= n + Opens(ops[..k])
  }

  /** Every run keeps the state coherent and counts clients exactly. */
  lemma {:induction false} RunCounts(s: Lifecycle, ops: seq<ClientOp>)
    requires Coherent(s)
    ensures Run(s, ops).Some? ==>
              Coherent(Run(s, ops).value) &&
              Run(s, ops).value.clients == s.clients + Opens(ops) - Closes(ops)
    decreases |ops|
  {
    if ops != [] {
      match ops[0]
      case OpenClient(connects) =>
        RunCounts(Attach(s, connects), ops[1..]);
      case CloseClient =>
        if s.clients > 0 {
          RunCounts(Detach(s), ops[1..]);
        }
    }
  }

  /** Counts of a non-empty prefix split into its first operation and the rest. */
  lemma PrefixCounts(ops: seq<ClientOp>, k: nat)
    requires 1 <= k <= |ops|
    ensures Opens(ops[..k]) == (if ops[0].OpenClient? then 1 else 0) + Opens(ops[1..][..k - 1])
    ensures Closes(ops[..k]) == (if ops[0].CloseClient? then 1 else 0) + Closes(ops[1..][..k - 1])
  {
    assert ops[..k][0] == ops[0];
    assert ops[..k][1..] == ops[1..][..k - 1];
  }

  /** Dropping a first open adds one client to the bound the rest must respect. */
  lemma NeverUnderflowsAfterOpen(n: nat, ops: seq<ClientOp>)
    requires ops != [] && ops[0].OpenClient?
    ensures NeverUnderflows(n, ops) <==> NeverUnderflows(n + 1, ops[1..])
  {
    if NeverUnderflows(n, ops) {
      forall j | 0 <= j <= |ops[1..]|
        ensures Closes(ops[1..][..j]) <= n + 1 + Opens(ops[1..][..j])
      {
        PrefixCounts(ops, j + 1);
      }
    }
    if NeverUnderflows(n + 1, ops[1..]) {
      forall j | 0 <= j <= |ops|
        ensures Closes(ops[..j]) <= n + Opens(ops[..j])
      {
        if j > 0 {
          PrefixCounts(ops, j);
        }
      }
    }
  }

  /** Dropping a first close takes one client off the bound, and needs one. */
  lemma NeverUnderflowsAfterClose(n: nat, ops: seq<ClientOp>)
    requires ops != [] && ops[0].CloseClient?
    ensures NeverUnderflows(n, ops) <==> n > 0 && NeverUnderflows(n - 1, ops[1..])
  {
    if NeverUnderflows(n, ops) {
      PrefixCounts(ops, 1);
      assert Closes(ops[..1]) <= n + Opens(ops[..1]);
      forall j | 0 <= j <= |ops[1..]|
        ensures Closes(ops[1..][..j]) <= n - 1 + Opens(ops[1..][..j])
      {
        PrefixCounts(ops, j + 1);
      }
    }
    if n > 0 && NeverUnderflows(n - 1, ops[1..]) {
      forall j | 0 <= j <= |ops|
        ensures Closes(ops[..j]) <= n + Opens(ops[..j])
      {
        if j > 0 {
          PrefixCounts(ops, j);
        }
      }
    }
  }

  /** A run reaches the fatal close exactly when some prefix closes more clients than it has. */
  lemma {:induction false} RunDefinedIffNeverUnderflows(s: Lifecycle, ops: seq<ClientOp>)
    ensures Run(s, ops).Some? <==> NeverUnderflows(s.clients, ops)
    decreases |ops|
  {
    if ops == [] {
      assert ops[..0] == [];
    } else {
      match ops[0]
      case OpenClient(connects) =>
        NeverUnderflowsAfterOpen(s.clients, ops);
        RunDefinedIffNeverUnderflows(Attach(s, connects), ops[1..]);
      case CloseClient =>
        NeverUnderflowsAfterClose(s.clients, ops);
        if s.clients > 0 {
          RunDefinedIffNeverUnderflows(Detach(s), ops[1..]);
        }
    }
  }

  /**
   * Any interleaving of N opens and N closes in which no close comes
   * before its open leaves the context idle: no client, connection closed.
   */
  lemma BalancedRunEndsIdle(ops: seq<ClientOp>)
    requires NeverUnderflows(0, ops)
    requires Opens(ops) == Closes(ops)
    ensures Run(Idle, ops) == Some(Idle)
  {
    RunDefinedIffNeverUnderflows(Idle, ops);
    RunCounts(Idle, ops);
  }

  /** When every connection attempt succeeds, the connection is open exactly while a client is attached. */
  lemma {:induction false} ConnectedIffAttached(s: Lifecycle, ops: seq<ClientOp>)
    requires s.connected <==> s.clients > 0
    requires forall i :: 0 <= i < |ops| && ops[i].OpenClient? ==> ops[i].connects
    ensures Run(s, ops).Some? ==> (Run(s, ops).value.connected <==> Run(s, ops).value.clients > 0)
    decreases |ops|
  {
    if ops != [] {
      assert forall i :: 0 <= i < |ops[1..]| ==> ops[1..][i] == ops[i + 1];
      match ops[0]
      case OpenClient(connects) =>
        ConnectedIffAttached(Attach(s, connects), ops[1..]);
      case CloseClient =>
        if s.clients > 0 {
          ConnectedIffAttached(Detach(s), ops[1..]);
        }
    }
  }

  /** `private_module_t`: the reference count and the ION connection of the process. */
  class PrivateModule {
    var refcount: int
    var ionfd: int
    const kernel: Kernel

    /**
     * The count is never negative, and the kernel holds exactly one ION
     * connection, `ionfd`, while clients are attached and `ion_open`
     * succeeded, and none otherwise.
     */
    ghost predicate Valid()
      reads this, kernel
    {
      kernel.Valid() && refcount >= 0 &&
      Connections(kernel.fds) == (if refcount > 0 && ionfd >= 0 then {ionfd} else {})
    }

    ghost function State(): Lifecycle
      reads this, kernel
      requires refcount >= 0
    {
      Lifecycle(refcount, ionfd in Connections(kernel.fds))
    }

    constructor (k: Kernel)
      requires k.Valid() && Connections(k.fds) == {}
      ensures Valid() && kernel == k
      ensures refcount == 0 && ionfd == -1 && State() == Idle
    {
      kernel := k;
      refcount := 0;
      ionfd := -1;
    }

    /** The reference-count part of `gralloc_device_open`. */
    method DeviceOpen(name: string) returns (status: int)
      requires Valid()
      modifies this, kernel
      ensures Valid()
      ensures kernel.requests == old(kernel.requests) && kernel.answers == old(kernel.answers)
      ensures name != Gpu0 ==>
                status == -EINVAL && refcount == old(refcount) && ionfd == old(ionfd) &&
                kernel.fds == old(kernel.fds)
      ensures name == Gpu0 ==> status == 0 && State() == Attach(old(State()), ionfd >= 0)
      ensures name == Gpu0 && old(refcount) > 0 ==>
                ionfd == old(ionfd) && kernel.fds == old(kernel.fds)
      ensures name == Gpu0 && old(refcount) == 0 && ionfd >= 0 ==>
                ionfd !in old(kernel.fds) && kernel.fds == old(kernel.fds)[ionfd := Connection]
      ensures name == Gpu0 && old(refcount) == 0 && ionfd < 0 ==> kernel.fds == old(kernel.fds)
    {
      if name == Gpu0 {
        if refcount == 0 {
          ionfd := kernel.Open();
        }
        refcount := refcount + 1;
        status := 0;
      } else {
        status := -EINVAL;
      }
    }

    /**
     * `gralloc_close`. `hasContext` is false for a null context. Closing
     * with no client attached is fatal in the source, so it is excluded.
     */
    method Close(hasContext: bool) returns (status: int)
      requires Valid()
      requires hasContext ==> refcount > 0
      modifies this, kernel
      ensures Valid()
      ensures status == 0 && ionfd == old(ionfd)
      ensures kernel.requests == old(kernel.requests) && kernel.answers == old(kernel.answers)
      ensures !hasContext ==> refcount == old(refcount) && kernel.fds == old(kernel.fds)
      ensures hasContext ==> refcount == old(refcount) - 1 && State() == Detach(old(State()))
      ensures hasContext ==>
                kernel.fds == if refcount == 0 then old(kernel.fds) - {ionfd} else old(kernel.fds)
    {
      if hasContext {
        refcount := refcount - 1;
        if refcount == 0 {
          kernel.Close(ionfd);
        }
      }
      status := 0;
    }
  }
}
