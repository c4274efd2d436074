/**
 The seat table as the programs update it: an array of seats written field by field,
 searched by loops. Each loop is proved to compute the function by which the
 transition system describes it.
 */
module SeatTable {
  import opened Settings
  import opened SharedRecord
  import opened Seats

  class PosteStations {
    const seats: array<Seat>
    const numSeats: nat
    var stationsLock: int
    var stationsEvent: nat
    var stationsFreedEvent: nat

    /** The configured number of seats must fit the fixed array. */
    ghost predicate Valid()
      reads this
    {
      seats.Length == MAX_SEATS && numSeats <= MAX_SEATS
    }

    ghost function Table(): seq<Seat>
      requires Valid()
      reads this, seats
    {
      seats[..numSeats]
    }

    constructor (n: nat)
      requires n <= MAX_SEATS
      ensures Valid() && fresh(seats) && numSeats == n
      ensures stationsLock == 1 && stationsEvent == stationsFreedEvent == 0
      ensures forall i | 0 <= i < n :: Table()[i] == Seat(0, FREE, FREE, 0)
    {
      seats := new Seat[MAX_SEATS](_ => Seat(0, FREE, FREE, 0));
      numSeats := n;
      stationsLock, stationsEvent, stationsFreedEvent := 1, 0, 0;
    }

    /** The lowest free seat for the service, or -1. */
    method FindFreeSeat(k: int) returns (r: int)
      requires Valid()
      ensures r == FindSeat(Table(), k)
      ensures r == -1 <==> forall j | 0 <= j < numSeats :: !Vacant(Table(), j, k)
    {
      var i := 0;
      while i < numSeats
        invariant i <= numSeats
        invariant FindSeat(Table(), k) == FindSeat(Table(), k, i)
      {
        if seats[i].operator == FREE && seats[i].service == k {
          return i;
        }
        i := i + 1;
      }
      return -1;
    }

    method CanWorkToday(k: int) returns (can: bool)
      requires Valid()
      ensures can <==> exists i | 0 <= i < numSeats :: seats[i].service == k
    {
      var i := 0;
      while i < numSeats
        invariant i <= numSeats
        invariant forall j | 0 <= j < i :: seats[j].service != k
      {
        if seats[i].service == k {
          return true;
        }
        i := i + 1;
      }
      return false;
    }

    /** Called with stations_lock held. */
    method TakeSeat(i: int, pid: int)
      requires Valid() && 0 <= i < numSeats
      modifies seats
      ensures Table() == Run(ApplySeat, old(Table()), TakeWrites(i, pid))
      ensures Table() == old(Table())[i := old(Table())[i].(process := pid, operator := OCCUPIED)]
    {
      seats[i] := seats[i].(process := pid);
      seats[i] := seats[i].(operator := OCCUPIED);
      RunTake(old(Table()), i, pid);
    }

    method ReleaseSeat(i: int)
      requires Valid() && 0 <= i < numSeats && stationsLock > 0
      modifies this`stationsLock, this`stationsEvent, seats
      ensures Table() == Run(ApplySeat, old(Table()), ReleaseWrites(i))
      ensures Table() == old(Table())[i := old(Table())[i].(process := 0, operator := FREE)]
      ensures stationsLock == old(stationsLock) && stationsEvent == old(stationsEvent) + 1
    {
      stationsLock := stationsLock - 1;
      seats[i] := seats[i].(operator := FREE);
      seats[i] := seats[i].(process := 0);
      stationsLock := stationsLock + 1;
      stationsEvent := stationsEvent + 1;
      RunRelease(old(Table()), i);
    }

    /** The first search of an operator, under the lock: it finds and takes in one section. */
    method FindAndTake(k: int, pid: int) returns (r: int)
      requires Valid() && stationsLock > 0
      modifies this`stationsLock, seats
      ensures stationsLock == old(stationsLock)
      ensures r == FindSeat(old(Table()), k)
      ensures Table() == Run(ApplySeat, old(Table()), if r == -1 then [] else TakeWrites(r, pid))
    {
      stationsLock := stationsLock - 1;
      r := FindFreeSeat(k);
      if r != -1 {
        TakeSeat(r, pid);
      }
      stationsLock := stationsLock + 1;
    }

    /** Collects the staffed seats for the service into the caller's array. */
    method FindValidSeats(k: int, valid: array<int>) returns (count: nat)
      requires Valid() && stationsLock > 0 && valid.Length >= numSeats
      modifies this`stationsLock, valid
      ensures stationsLock == old(stationsLock)
      ensures count <= numSeats && valid[..count] == ValidSeats(Table(), k, numSeats)
      ensures forall i :: i in valid[..count] <==> Staffed(Table(), i, k)
    {
      count := 0;
      stationsLock := stationsLock - 1;
      var i := 0;
      while i < numSeats
        invariant count <= i <= numSeats
        invariant stationsLock == old(stationsLock) - 1
        invariant valid[..count] == ValidSeats(Table(), k, i)
      {
        if seats[i].service == k && seats[i].operator == OCCUPIED {
          valid[count] := i;
          count := count + 1;
        }
        i := i + 1;
      }
      stationsLock := stationsLock + 1;
    }

    /** The first of the given seats that no user occupies becomes the caller's. */
    method AttemptTakeSeat(valid: array<int>, n: nat) returns (current: int)
      requires Valid() && stationsLock > 0 && n <= valid.Length
      requires forall a | 0 <= a < n :: 0 <= valid[a] < numSeats
      modifies this`stationsLock, seats
      ensures stationsLock == old(stationsLock)
      ensures current == FirstOffered(old(Table()), valid[..n])
      ensures Table() == Run(ApplySeat, old(Table()), if current == -1 then [] else [SetUser(current, OCCUPIED)])
    {
      current := -1;
      stationsLock := stationsLock - 1;
      ghost var table, list := Table(), valid[..n];
      var i := 0;
      while i < n && current == -1
        invariant i <= n && stationsLock == old(stationsLock) - 1
        invariant current == -1 ==> Table() == table && FirstOffered(table, list) == FirstOffered(table, list, i)
        invariant current != -1 ==>
                    && 0 <= current < numSeats && current == FirstOffered(table, list)
                    && Table() == table[current := table[current].(user := OCCUPIED)]
        decreases n - i, current == -1
      {
        assert list[i] == valid[i] && Table()[list[i]] == seats[valid[i]];
        if seats[valid[i]].user == FREE {
          current := valid[i];
          seats[current] := seats[current].(user := OCCUPIED);
        } else {
          i := i + 1;
        }
      }
      stationsLock := stationsLock + 1;
      if current != -1 {
        RunUser(table, current, OCCUPIED);
      }
    }

    /** The user gives up its seat and wakes one who may be waiting. */
    method FreeUserSeat(i: int)
      requires Valid() && 0 <= i < numSeats && stationsLock > 0
      modifies this`stationsLock, this`stationsFreedEvent, seats
      ensures stationsLock == old(stationsLock) && stationsFreedEvent == old(stationsFreedEvent) + 1
      ensures Table() == Run(ApplySeat, old(Table()), [SetUser(i, FREE)])
      ensures Table() == old(Table())[i := old(Table())[i].(user := FREE)]
    {
      stationsLock := stationsLock - 1;
      seats[i] := seats[i].(user := FREE);
      stationsLock := stationsLock + 1;
      stationsFreedEvent := stationsFreedEvent + 1;
      RunUser(old(Table()), i, FREE);
    }

    /** The seat half of start_new_day: every seat is cleared and given a service, drawn by rand(). */
    method ResetSeats(draws: seq<nat>)
      requires Valid() && stationsLock > 0 && |draws| == numSeats
      modifies this`stationsLock, seats
      ensures stationsLock == old(stationsLock)
      ensures Table() == Cleared(Drawn(draws)) == Run(ApplySeat, old(Table()), ResetWrites(Drawn(draws), 0))
    {
      stationsLock := stationsLock - 1;
      var i := 0;
      while i < numSeats
        invariant i <= numSeats && stationsLock == old(stationsLock) - 1
        invariant forall j | 0 <= j < i :: seats[j] == Seat(0, FREE, FREE, Drawn(draws)[j])
        invariant forall j | i <= j < numSeats :: seats[j] == old(seats[j])
      {
        seats[i] := seats[i].(process := 0);
        seats[i] := seats[i].(operator := FREE);
        seats[i] := seats[i].(user := FREE);
        seats[i] := seats[i].(service := draws[i] % SERVICES);
        i := i + 1;
      }
      stationsLock := stationsLock + 1;
      RunReset(old(Table()), Drawn(draws), 0);
      assert Table() == Cleared(Drawn(draws));
    }
  }

  function Drawn(draws: seq<nat>): (services: seq<int>)
    ensures |services| == |draws| && forall i | 0 <= i < |draws| :: services[i] == draws[i] % SERVICES
    ensures forall i | 0 <= i < |draws| :: IsService(services[i])
  {
    seq(|draws|, i requires 0 <= i < |draws| => draws[i] % SERVICES)
  }

  /** The day's list of services of one user; the array holds MAX_N_REQUESTS_COMPILE entries. */
  method GenerateServiceList(list: array<int>, maxRequests: nat, draw: nat, draws: seq<nat>) returns (n: nat)
    requires 0 < maxRequests <= list.Length && |draws| >= maxRequests
    modifies list
    ensures n == draw % maxRequests + 1 && 1 <= n <= maxRequests
    ensures list[..n] == Drawn(draws[..n])
    ensures list[n..] == old(list[n..])
  {
    n := draw % maxRequests + 1;
    var i := 0;
    while i < n
      invariant i <= n <= maxRequests
      invariant forall j | 0 <= j < i :: list[j] == draws[j] % SERVICES
      invariant forall j | i <= j < list.Length :: list[j] == old(list[j])
    {
      list[i] := draws[i] % SERVICES;
      i := i + 1;
    }
  }

  /** The list that a draw of its length and draws of its entries make. */
  predicate ListDrawn(maxRequests: nat, list: seq<int>, draw: nat, draws: seq<nat>)
    requires maxRequests > 0
  {
    |draws| >= maxRequests && |list| == draw % maxRequests + 1 && Drawn(draws[..|list|]) == list
  }

  lemma DrawnInRange(maxRequests: nat, list: seq<int>, draw: nat, draws: seq<nat>)
    requires maxRequests > 0 && ListDrawn(maxRequests, list, draw, draws)
    ensures 1 <= |list| <= maxRequests && forall i | 0 <= i < |list| :: IsService(list[i])
  {
    var services := Drawn(draws[..|list|]);
    assert list == services;
  }

  lemma ServicesDrawThemselves(list: seq<int>, draws: seq<nat>)
    requires |draws| >= |list| && forall i | 0 <= i < |list| :: IsService(list[i]) && draws[i] == list[i]
    ensures Drawn(draws[..|list|]) == list
  {
    forall i | 0 <= i < |list| ensures Drawn(draws[..|list|])[i] == list[i] {
      assert list[i] % SERVICES == list[i];
    }
  }

  /** The lists drawn are exactly those a user may go out with: of each length up to the limit, of any services. */
  lemma ListsDrawn(maxRequests: nat, list: seq<int>)
    requires maxRequests > 0
    ensures (exists draw, draws :: ListDrawn(maxRequests, list, draw, draws))
       <==> 1 <= |list| <= maxRequests && forall i | 0 <= i < |list| :: IsService(list[i])
  {
    if draw, draws :| ListDrawn(maxRequests, list, draw, draws) {
      DrawnInRange(maxRequests, list, draw, draws);
    } else if 1 <= |list| <= maxRequests && forall i | 0 <= i < |list| :: IsService(list[i]) {
      var draws: seq<nat> := seq(maxRequests, i requires 0 <= i < maxRequests => if i < |list| then list[i] else 0);
      ServicesDrawThemselves(list, draws);
      ShorterDraw(|list| - 1, maxRequests);
      assert ListDrawn(maxRequests, list, |list| - 1, draws);
    }
  }

  lemma ShorterDraw(draw: nat, maxRequests: nat)
    requires draw < maxRequests
    ensures draw % maxRequests == draw
  {
  }
}
