/** Ticket servers: the per-CPU server that spins on separate slots, and the single counter that it
    speeds up. */
module Tickets {
  import opened RingIndex

  /** What slot `r` of a server with `cores` slots holds after `k` consumptions: the largest ticket
      not above `k` in residue class `r`, or that class's "hold on" value below zero. */
  function SlotValue(cores: nat, k: nat, r: nat): (v: int)
    requires r < cores
    ensures k - cores < v <= k
    decreases k
  {
    if k < cores then (if r <= k then r else r - cores) else SlotValue(cores, k - cores, r) + cores
  }

  /** The slot of ticket `t` holds `t` exactly while `t` is one of the last `cores` tickets up to `k`. */
  lemma {:induction false} SlotHolds(cores: nat, k: nat, ticket: nat)
    requires cores > 0
    ensures SlotValue(cores, k, Index(cores, ticket)) == ticket <==> k - cores < ticket <= k
    decreases k + ticket
  {
    if k >= cores && ticket >= cores {
      SlotHolds(cores, k - cores, ticket - cores);
    } else if k >= cores {
      assert SlotValue(cores, k - cores, ticket) > k - cores - cores;
      LowSlot(cores, k, ticket);
    } else if ticket >= cores {
      assert SlotValue(cores, k, Index(cores, ticket)) <= k;
    }
  }

  lemma {:induction false} LowSlot(cores: nat, k: nat, r: nat)
    requires r < cores <= k
    ensures SlotValue(cores, k, r) == r <==> k - cores < r
  {
    if k - cores >= cores {
      LowSlotAbove(cores, k - cores, r);
    }
  }

  lemma {:induction false} LowSlotAbove(cores: nat, k: nat, r: nat)
    requires r < cores <= k
    ensures SlotValue(cores, k, r) >= r
  {
    if k - cores >= cores {
      LowSlotAbove(cores, k - cores, r);
    }
  }

  /** Consuming ticket `k` adds `cores` to one slot and leaves the others. */
  lemma {:induction false} SlotAdvances(cores: nat, k: nat, r: nat)
    requires r < cores
    ensures SlotValue(cores, k + 1, r) ==
      SlotValue(cores, k, r) + (if r == Index(cores, k + 1) then cores else 0)
  {
    if k >= cores {
      SlotAdvances(cores, k - cores, r);
    }
  }

  /** The single counter.  Both servers keep the number of tickets consumed so far as `served`. */
  class SingleOrderingTicketServer {
    var servingTicket: nat
    ghost var served: nat

    ghost predicate Valid()
      reads this
    {
      servingTicket == served
    }

    constructor ()
      ensures Valid() && served == 0
    {
      servingTicket := 0;
      served := 0;
    }

    /** True exactly for the first ticket that has not been consumed. */
    method IsMyTurn(ticket: nat) returns (b: bool)
      requires Valid()
      ensures b <==> ticket == served
    {
      b := servingTicket == ticket;
    }

    method ConsumeSafe(ticket: nat)
      requires Valid() && ticket == served
      modifies this
      ensures Valid() && served == old(served) + 1
    {
      servingTicket := servingTicket + 1;
      served := served + 1;
    }
  }

  /** One slot per core; ticket t waits on slot t % Cores. */
  class PerCPUOrderingTicketServer {
    var slots: array<int>
    var cores: nat
    ghost var served: nat  // tickets consumed so far

    ghost predicate Valid()
      reads this, slots
    {
      && cores > 0 && slots.Length == cores
      && (forall r :: 0 <= r < cores ==> slots[r] == SlotValue(cores, served, r))
    }

    constructor (hardwareThreads: nat)
      requires hardwareThreads > 0
      ensures Valid() && fresh(slots) && cores == hardwareThreads && served == 0
    {
      cores := hardwareThreads;
      slots := new int[hardwareThreads];
      served := 0;
      new;
      slots[0] := 0;
      for i := 1 to cores
        invariant slots.Length == cores == hardwareThreads && served == 0 && fresh(slots)
        invariant forall r :: 0 <= r < i ==> slots[r] == SlotValue(cores, 0, r)
      {
        slots[i] := i - cores;
      }
    }

    /** True for the ticket now being served, and also for tickets consumed fewer than `cores`
        consumptions ago: their slots have not been reused. */
    method IsMyTurn(ticket: nat) returns (b: bool)
      requires Valid()
      ensures b <==> served - cores < ticket <= served
    {
      IndexIsRemainder(cores, ticket);
      SlotHolds(cores, served, ticket);
      var slot := ticket % cores;
      b := slots[slot] == ticket;
    }

    method ConsumeSafe(ticket: nat)
      requires Valid() && ticket == served
      modifies this`served, slots
      ensures Valid() && served == old(served) + 1 && slots == old(slots) && cores == old(cores)
    {
      IndexIsRemainder(cores, ticket + 1);
      var newSlot := (ticket + 1) % cores;
      forall r | 0 <= r < cores
        ensures SlotValue(cores, ticket + 1, r) == slots[r] + (if r == newSlot then cores else 0)
      {
        SlotAdvances(cores, ticket, r);
      }
      slots[newSlot] := slots[newSlot] + cores;
      served := served + 1;
    }
  }

  /** The two servers, having consumed the same `k` tickets, answer alike on a ticket exactly when it
      is not one of the `cores - 1` consumed last; so they agree on every ticket still to be consumed,
      and among those exactly `k` is eligible. */
  lemma ServersAgree(cores: nat, k: nat, ticket: nat)
    requires cores > 0
    ensures (SlotValue(cores, k, Index(cores, ticket)) == ticket <==> ticket == k) <==> !(k - cores < ticket < k)
    ensures ticket >= k ==> (SlotValue(cores, k, Index(cores, ticket)) == ticket <==> ticket == k)
  {
    SlotHolds(cores, k, ticket);
  }

  /** The smallest case in which they differ: two cores, and ticket 0 again after it was consumed. */
  lemma ServersDiffer()
    ensures var cores, k, ticket := 2, 1, 0; SlotValue(cores, k, Index(cores, ticket)) == ticket && ticket != k
  {
    SlotHolds(2, 1, 0);
  }

  /** Two servers from which the same number of tickets was consumed: the comparisons that their
      isMyTurn methods make agree on a ticket exactly when it is not one of the `cores - 1` consumed
      last. */
  lemma ServersAgreeInPlace(single: SingleOrderingTicketServer, perCPU: PerCPUOrderingTicketServer, ticket: nat)
    requires single.Valid() && perCPU.Valid() && single.served == perCPU.served
    ensures ticket % perCPU.cores < perCPU.slots.Length
    ensures (perCPU.slots[ticket % perCPU.cores] == ticket <==> single.servingTicket == ticket) <==>
      !(single.served - perCPU.cores < ticket < single.served)
  {
    IndexIsRemainder(perCPU.cores, ticket);
    ServersAgree(perCPU.cores, perCPU.served, ticket);
  }
}
