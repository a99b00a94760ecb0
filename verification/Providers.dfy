/** The provider exchange (`providers.py`): one call, its retries against one deadline, and the addresses each request
    may be sent to. The clock only moves forward and the network answers as it likes. */
module Providers {
  import opened Basics

  datatype Failure = Timeout | ToolsUnsupported | Refused(code: nat) | Network(transient: bool)

  /** What one send comes back with. */
  datatype Reply = Content(body: nat) | NoConnection | Fails(failure: Failure)

  /** One send: in which request, to which address, with what timeout at what time, and its reply. */
  datatype Send = Send(request: nat, address: nat, timeout: real, at: real, reply: Reply)

  /** One wait: planned at what time, for how long. */
  datatype Wait = Wait(at: real, delay: real)

  const MAX_RETRIES := 2

  function Retries(asked: int): nat {
    if asked < 0 then 0 else if asked > MAX_RETRIES then MAX_RETRIES else asked
  }

  /** A quarter of a second, doubled at each retry. */
  function Delay(retry: nat): (d: real)
    ensures d > 0.0
  {
    if retry == 0 then 0.25 else 2.0 * Delay(retry - 1)
  }

  function Backoff(waits: seq<Wait>): real {
    if waits == [] then 0.0 else Backoff(waits[..|waits| - 1]) + waits[|waits| - 1].delay
  }

  /** Every send has all the time that was left and no more. */
  ghost predicate SendsInTime(sends: seq<Send>, deadline: real) {
    forall i | 0 <= i < |sends| :: 0.0 < sends[i].timeout == deadline - sends[i].at
  }

  /** Every wait was to end before the deadline. */
  ghost predicate WaitsInTime(waits: seq<Wait>, deadline: real) {
    forall i | 0 <= i < |waits| :: waits[i].at + waits[i].delay < deadline
  }

  /** The waits of the retries so far. */
  ghost predicate Doubling(waits: seq<Wait>) {
    forall i | 0 <= i < |waits| :: waits[i].delay == Delay(i)
  }

  /** A send may follow another: a next address of the same request after a failed connection, or the first address of
      a later request. */
  predicate Follows(a: Send, b: Send) {
    if a.request == b.request then b.address == a.address + 1 && a.reply == NoConnection
    else a.request < b.request && b.address == 0
  }

  /** Requests try the addresses in order from the first. */
  ghost predicate AddressesOnce(sends: seq<Send>, addresses: nat) {
    && (forall i | 0 <= i < |sends| :: sends[i].address < addresses)
    && (forall i | 0 < i < |sends| :: Follows(sends[i - 1], sends[i]))
    && (sends != [] ==> sends[0].address == 0)
  }

  /** All sends belong to requests begun. */
  ghost predicate Begun(sends: seq<Send>, requests: nat) {
    forall i | 0 <= i < |sends| :: sends[i].request < requests
  }

  lemma OneMoreSend(sends: seq<Send>, s: Send, addresses: nat, deadline: real, requests: nat)
    requires SendsInTime(sends, deadline) && AddressesOnce(sends, addresses) && Begun(sends, requests)
    requires 0.0 < s.timeout == deadline - s.at && s.address < addresses && s.request < requests
    requires if sends == [] then s.address == 0 else Follows(sends[|sends| - 1], s)
    ensures SendsInTime(sends + [s], deadline) && AddressesOnce(sends + [s], addresses) && Begun(sends + [s], requests)
  {
    var all := sends + [s];
    forall i | 0 < i < |all| ensures Follows(all[i - 1], all[i]) {
      assert i < |sends| ==> all[i] == sends[i] && all[i - 1] == sends[i - 1];
    }
  }

  class Session {
    const addresses: nat
    var now: real
    var sends: seq<Send>
    var waits: seq<Wait>
    /** Requests begun. */
    var requests: nat

    constructor (addresses: nat, start: real)
      ensures this.addresses == addresses && now == start && sends == [] && waits == [] && requests == 0
    {
      this.addresses := addresses;
      now, sends, waits, requests := start, [], [], 0;
    }

    method Clock() returns (t: real)
      modifies this`now
      ensures t == now >= old(now)
    {
      var passed: real :| passed >= 0.0;
      now := now + passed;
      t := now;
    }

    method Exchange() returns (reply: Reply)
      modifies this`now
      ensures now >= old(now)
    {
      reply := *;
      var _ := Clock();
    }

    ghost predicate Orderly(deadline: real)
      reads this
    {
      SendsInTime(sends, deadline) && AddressesOnce(sends, addresses) && Begun(sends, requests)
    }

    /** One request: each address in turn while connecting fails and time is left. */
    method Request(deadline: real) returns (reply: Result<nat, Failure>)
      requires Orderly(deadline)
      modifies this`now, this`sends, this`requests
      ensures Orderly(deadline)
      ensures requests == old(requests) + 1 && old(sends) <= sends && now >= old(now)
      ensures reply.Ok? ==> sends != [] && sends[|sends| - 1].reply == Content(reply.value)
    {
      ghost var before := sends;
      var request := requests;
      requests := requests + 1;
      assert Begun(sends, requests);
      var lost := false;
      for address := 0 to addresses
        invariant requests == request + 1 && before <= sends && now >= old(now)
        invariant Orderly(deadline)
        invariant |sends| == |before| + address && (lost <==> address > 0)
        invariant address == 0 ==> sends == before
        invariant address > 0 ==>
          var last := sends[|sends| - 1];
          last.request == request && last.address == address - 1 && last.reply == NoConnection
      {
        var t := Clock();
        var remaining := deadline - t;
        if remaining <= 0.0 {
          return Err(Timeout);
        }
        var r := Exchange();
        var s := Send(request, address, remaining, t, r);
        OneMoreSend(sends, s, addresses, deadline, requests);
        sends := sends + [s];
        match r {
          case Content(body) => return Ok(body);
          case NoConnection => lost := true;
          case Fails(f) => return Err(f);
        }
      }
      // A lost connection is a transient network failure.
      reply := Err(if lost then Network(true) else Refused(0));
    }

    /** The whole call: one request, once more without tools if they are not supported, and after each transient
        failure again while retries and time last. */
    method Invoke(asked: int, tools: bool, auto: bool, timeout: real)
      returns (reply: Result<nat, Failure>, retries: nat, fallback: bool, deadline: real)
      requires sends == [] && waits == [] && requests == 0
      modifies this
      ensures Orderly(deadline) && WaitsInTime(waits, deadline)
      ensures deadline == old(now) + timeout && now >= old(now)
      ensures requests <= 1 + retries + (if fallback then 1 else 0)
      ensures retries == |waits| <= Retries(asked) && Doubling(waits) && Backoff(waits) <= 0.75
      ensures fallback ==> tools && auto
      ensures reply.Ok? ==> sends != [] && sends[|sends| - 1].reply == Content(reply.value)
    {
      deadline := now + timeout;
      retries, fallback := 0, false;
      var offered := tools;
      while true
        invariant Orderly(deadline) && WaitsInTime(waits, deadline)
        invariant requests == retries + (if fallback then 1 else 0)
        invariant retries == |waits| <= Retries(asked) && Doubling(waits)
        invariant fallback ==> tools && auto && !offered
        invariant offered ==> tools
        invariant deadline == old(now) + timeout && now >= old(now)
        decreases offered, Retries(asked) - retries
      {
        BackoffIsSmall(waits);
        var t := Clock();
        if deadline - t <= 0.0 {
          return Err(Timeout), retries, fallback, deadline;
        }
        reply := Request(deadline);
        if reply.Ok? {
          return;
        }
        if reply.error.ToolsUnsupported? && offered && auto {
          offered, fallback := false, true;
          continue;
        }
        if !reply.error.Network? || !reply.error.transient || retries >= Retries(asked) {
          return;
        }
        var delay := Delay(retries);
        var planned := Clock();
        if planned + delay >= deadline {
          return Err(Timeout), retries, fallback, deadline;
        }
        Sleep(planned, delay);
        retries := retries + 1;
      }
    }

    method Sleep(planned: real, delay: real)
      requires delay >= 0.0
      modifies this`now, this`waits
      ensures waits == old(waits) + [Wait(planned, delay)] && now >= old(now) + delay
    {
      waits := waits + [Wait(planned, delay)];
      now := now + delay;
      var _ := Clock();
    }
  }

  /** Two retries wait a quarter and a half of a second. */
  lemma BackoffIsSmall(waits: seq<Wait>)
    requires Doubling(waits) && |waits| <= MAX_RETRIES
    ensures Backoff(waits) <= 0.75
  {
    assert Delay(1) == 0.5;
    if |waits| == 2 {
      assert waits[..1][..0] == [] && waits[..1][0] == waits[0];
      assert Backoff(waits[..1]) == waits[0].delay;
    }
  }

  /** Within one request no address is tried twice, and the next one is tried only after the one before could not be
      reached. */
  lemma {:induction false} NoAddressTwice(sends: seq<Send>, addresses: nat, i: nat, j: nat)
    requires AddressesOnce(sends, addresses) && i < j < |sends| && sends[i].request == sends[j].request
    ensures sends[i].address < sends[j].address && sends[i].reply == NoConnection
    ensures sends[j].address - sends[i].address == j - i
    decreases j - i
  {
    RequestsAscend(sends, addresses, i, j - 1);
    RequestsAscend(sends, addresses, j - 1, j);
    if i < j - 1 {
      NoAddressTwice(sends, addresses, i, j - 1);
    }
  }

  lemma {:induction false} RequestsAscend(sends: seq<Send>, addresses: nat, i: nat, j: nat)
    requires AddressesOnce(sends, addresses) && i <= j < |sends|
    ensures sends[i].request <= sends[j].request
    decreases j - i
  {
    if i < j {
      RequestsAscend(sends, addresses, i, j - 1);
    }
  }

  lemma {:induction false} Scaled(a: nat, b: nat, n: nat)
    requires a <= b
    ensures a * n <= b * n && (a + 1) * n == a * n + n
  {
  }

  /** However many addresses there are, a call makes at most as many sends as requests times addresses. */
  lemma SendsAreBounded(sends: seq<Send>, addresses: nat, requests: nat)
    requires AddressesOnce(sends, addresses) && Begun(sends, requests)
    ensures |sends| <= requests * addresses
  {
    if sends != [] {
      var last := sends[|sends| - 1];
      SendsAreBoundedBy(sends, addresses, |sends| - 1);
      Scaled(last.request + 1, requests, addresses);
      Scaled(last.request, last.request, addresses);
    }
  }

  lemma {:induction false} SendsAreBoundedBy(sends: seq<Send>, addresses: nat, k: nat)
    requires AddressesOnce(sends, addresses) && k < |sends|
    ensures k <= sends[k].request * addresses + sends[k].address
  {
    if k > 0 {
      SendsAreBoundedBy(sends, addresses, k - 1);
      var a, b := sends[k - 1], sends[k];
      if a.request != b.request {
        Scaled(a.request + 1, b.request, addresses);
        Scaled(a.request, a.request, addresses);
      }
    }
  }
}
