/** The circular block lists at the level of pointers (fs/locks.c:182-249).

    A lock with waiters heads a ring of `fl_nextblock`/`fl_prevblock` pointers; a lock with
    none has both pointers NULL.  `LockTypes.FileLock.blocked` is the sequence `ws` below. */
module BlockList {
  import opened Lists

  class Node {
    var nextblock: Node?
    var prevblock: Node?
    const pid: nat

    constructor (pid: nat)
      ensures this.pid == pid && nextblock == null && prevblock == null
    {
      this.pid, nextblock, prevblock := pid, null, null;
    }
  }

  ghost predicate Distinct(ws: seq<Node>) {
    forall i, j :: 0 <= i < j < |ws| ==> ws[i] != ws[j]
  }

  /** `ws` are the waiters of `blocker`, in the order in which they blocked. */
  ghost predicate Ring(blocker: Node, ws: seq<Node>)
    reads blocker, ws
  {
    && blocker !in ws
    && Distinct(ws)
    && (ws == [] ==> blocker.nextblock == null && blocker.prevblock == null)
    && (ws != [] ==>
          && blocker.nextblock == ws[0] && ws[0].prevblock == blocker
          && blocker.prevblock == ws[|ws| - 1] && ws[|ws| - 1].nextblock == blocker)
    && (forall i {:trigger ws[i].nextblock} :: 0 <= i < |ws| - 1 ==> ws[i].nextblock == ws[i + 1])
    && (forall i {:trigger ws[i].prevblock} :: 1 <= i < |ws| ==> ws[i].prevblock == ws[i - 1])
  }

  /** `locks_insert_block`: the waiter becomes the last of the ring. */
  method InsertBlock(blocker: Node, waiter: Node, ghost ws: seq<Node>)
    requires Ring(blocker, ws) && waiter !in ws && waiter != blocker
    modifies blocker, waiter, ws
    ensures Ring(blocker, ws + [waiter])
  {
    var prevblock := if blocker.prevblock == null then blocker else blocker.prevblock;
    prevblock.nextblock := waiter;
    blocker.prevblock := waiter;
    waiter.nextblock := blocker;
    waiter.prevblock := prevblock;
  }

  /** `locks_delete_block`: a waiter on the ring leaves it; one that has been taken off already
      changes nothing, and its former blocker, which may be gone, is not looked at. */
  method DeleteBlock(blocker: Node?, waiter: Node, ghost ws: seq<Node>, ghost k: nat, ghost all: set<Node>)
    requires waiter.nextblock != null ==>
               blocker != null && Ring(blocker, ws) && k < |ws| && waiter == ws[k]
    requires waiter.nextblock != null ==> forall n :: n in ws ==> n in all
    modifies if waiter.nextblock == null then {} else {blocker} + all
    ensures waiter.nextblock == null
    ensures old(waiter.nextblock) != null ==>
              Ring(blocker, RemoveAt(ws, k)) && waiter.prevblock == null
  {
    if waiter.nextblock != null {
      Unlink(blocker, waiter, ws, k, all);
    }
  }

  method Unlink(blocker: Node, waiter: Node, ghost ws: seq<Node>, ghost k: nat, ghost all: set<Node>)
    requires Ring(blocker, ws) && k < |ws| && waiter == ws[k]
    requires forall n :: n in ws ==> n in all
    modifies blocker, all
    ensures waiter.nextblock == null && waiter.prevblock == null
    ensures Ring(blocker, RemoveAt(ws, k))
    ensures forall n :: n in all && n !in ws && n != blocker ==>
              n.nextblock == old(n.nextblock) && n.prevblock == old(n.prevblock)
  {
    var nextblock, prevblock := waiter.nextblock, waiter.prevblock;
    assert nextblock == if k + 1 < |ws| then ws[k + 1] else blocker;
    assert prevblock == if k > 0 then ws[k - 1] else blocker;
    nextblock.prevblock := prevblock;
    prevblock.nextblock := nextblock;
    waiter.prevblock, waiter.nextblock := null, null;
    if blocker.nextblock == blocker {
      blocker.prevblock, blocker.nextblock := null, null;
    }
    ghost var rest := RemoveAt(ws, k);
    assert forall i :: 0 <= i < k ==> rest[i] == ws[i];
    assert forall i :: k <= i < |rest| ==> rest[i] == ws[i + 1];
  }

  lemma First(blocker: Node, ws: seq<Node>)
    requires Ring(blocker, ws)
    ensures blocker.nextblock == if ws == [] then null else ws[0]
  {
  }

  /** Take the first waiter off the ring. */
  method WakeFirst(blocker: Node, ghost rest: seq<Node>, ghost all: set<Node>) returns (pid: nat)
    requires Ring(blocker, rest) && rest != [] && forall n :: n in rest ==> n in all
    modifies blocker, all
    ensures pid == rest[0].pid && rest[0].nextblock == null && rest[0].prevblock == null
    ensures Ring(blocker, rest[1..]) && blocker.nextblock == if |rest| == 1 then null else rest[1]
    ensures forall n :: n in all && n !in rest && n != blocker ==>
              n.nextblock == old(n.nextblock) && n.prevblock == old(n.prevblock)
  {
    var waiter := blocker.nextblock;
    assert RemoveAt(rest, 0) == rest[1..];
    Unlink(blocker, waiter, rest, 0, all);
    First(blocker, rest[1..]);
    pid := waiter.pid;
  }

  /** The tail of a list without repetition. */
  lemma Advance(ws: seq<Node>, k: nat)
    requires Distinct(ws) && k < |ws|
    ensures ws[k..][1..] == ws[k + 1..] && ws[..k + 1] == ws[..k] + [ws[k]]
    ensures forall n :: n in ws[..k] ==> n !in ws[k..]
  {
  }

  ghost predicate InOrder(woken: seq<nat>, ws: seq<Node>) {
    |woken| <= |ws| && forall i :: 0 <= i < |woken| ==> woken[i] == ws[i].pid
  }

  lemma InOrderNext(woken: seq<nat>, ws: seq<Node>, pid: nat)
    requires InOrder(woken, ws) && |woken| < |ws| && pid == ws[|woken|].pid
    ensures InOrder(woken + [pid], ws)
  {
  }

  /** `locks_wake_up_blocks(blocker, 0)`: the waiters are woken in the order in which they blocked,
      and the ring is left empty. */
  method WakeUpBlocks(blocker: Node, ghost ws: seq<Node>, ghost all: set<Node>) returns (woken: seq<nat>)
    requires Ring(blocker, ws) && forall n :: n in ws ==> n in all
    modifies blocker, all
    ensures Ring(blocker, [])
    ensures |woken| == |ws| && InOrder(woken, ws)
    ensures forall n :: n in ws ==> n.nextblock == null && n.prevblock == null
  {
    woken := [];
    assert InOrder(woken, ws);
    assert Distinct(ws) && blocker !in ws && ws[0..] == ws;
    First(blocker, ws);
    hide Ring, Distinct, InOrder;
    while blocker.nextblock != null
      invariant |woken| <= |ws| && Ring(blocker, ws[|woken|..])
      invariant blocker.nextblock == if |woken| == |ws| then null else ws[|woken|]
      invariant InOrder(woken, ws)
      invariant forall n :: n in ws[..|woken|] ==> n.nextblock == null && n.prevblock == null
      decreases |ws| - |woken|
    {
      Advance(ws, |woken|);
      var pid := WakeFirst(blocker, ws[|woken|..], all);
      InOrderNext(woken, ws, pid);
      woken := woken + [pid];
    }
    assert ws[..|ws|] == ws && ws[|ws|..] == [];
  }
}
