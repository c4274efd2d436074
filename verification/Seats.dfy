/** The seat table: its single-field writes, and the searches that the loops over it perform. */
module Seats {
  import opened Settings
  import opened SharedRecord

  datatype Status = FREE | OCCUPIED

  datatype Seat = Seat(process: int, operator: Status, user: Status, service: int)

  datatype SeatWrite =
    | SetProcess(i: int, process: int)
    | SetOperator(i: int, status: Status)
    | SetUser(i: int, status: Status)
    | SetService(i: int, service: int)

  function ApplySeat(m: seq<Seat>, w: SeatWrite): (m': seq<Seat>)
    ensures |m'| == |m|
  {
    if !(0 <= w.i < |m|) then m
    else
      match w
      case SetProcess(i, p) => m[i := m[i].(process := p)]
      case SetOperator(i, st) => m[i := m[i].(operator := st)]
      case SetUser(i, st) => m[i := m[i].(user := st)]
      case SetService(i, k) => m[i := m[i].(service := k)]
  }

  // The writes of each locked section, in program order.

  function TakeWrites(i: int, pid: int): seq<SeatWrite> {
    [SetProcess(i, pid), SetOperator(i, OCCUPIED)]
  }

  function ReleaseWrites(i: int): seq<SeatWrite> {
    [SetOperator(i, FREE), SetProcess(i, 0)]
  }

  function ResetSeatWrites(i: int, k: int): seq<SeatWrite> {
    [SetProcess(i, 0), SetOperator(i, FREE), SetUser(i, FREE), SetService(i, k)]
  }

  /** The reset loop from seat i on, given the service drawn for each seat. */
  function ResetWrites(services: seq<int>, i: nat): seq<SeatWrite>
    requires i <= |services|
    decreases |services| - i
  {
    if i == |services| then [] else ResetSeatWrites(i, services[i]) + ResetWrites(services, i + 1)
  }

  function Cleared(services: seq<int>): (m: seq<Seat>)
    ensures |m| == |services|
    ensures forall i | 0 <= i < |m| :: m[i] == Seat(0, FREE, FREE, services[i])
  {
    seq(|services|, i requires 0 <= i < |services| => Seat(0, FREE, FREE, services[i]))
  }

  lemma RunTake(m: seq<Seat>, i: int, pid: int)
    requires 0 <= i < |m|
    ensures Run(ApplySeat, m, TakeWrites(i, pid)) == m[i := m[i].(process := pid, operator := OCCUPIED)]
  {
    Run2(ApplySeat, m, SetProcess(i, pid), SetOperator(i, OCCUPIED));
  }

  lemma RunRelease(m: seq<Seat>, i: int)
    requires 0 <= i < |m|
    ensures Run(ApplySeat, m, ReleaseWrites(i)) == m[i := m[i].(process := 0, operator := FREE)]
  {
    Run2(ApplySeat, m, SetOperator(i, FREE), SetProcess(i, 0));
  }

  lemma RunUser(m: seq<Seat>, i: int, st: Status)
    requires 0 <= i < |m|
    ensures Run(ApplySeat, m, [SetUser(i, st)]) == m[i := m[i].(user := st)]
  {
    Run1(ApplySeat, m, SetUser(i, st));
  }

  lemma RunResetSeat(m: seq<Seat>, i: int, k: int)
    requires 0 <= i < |m|
    ensures Run(ApplySeat, m, ResetSeatWrites(i, k)) == m[i := Seat(0, FREE, FREE, k)]
  {
    Run4(ApplySeat, m, SetProcess(i, 0), SetOperator(i, FREE), SetUser(i, FREE), SetService(i, k));
  }

  /** The loop clears every seat from i on and leaves the earlier ones alone. */
  lemma {:induction false} RunReset(m: seq<Seat>, services: seq<int>, i: nat)
    requires i <= |services| == |m|
    ensures Run(ApplySeat, m, ResetWrites(services, i)) == m[..i] + Cleared(services)[i..]
    decreases |services| - i
  {
    if i < |services| {
      RunConcat(ApplySeat, m, ResetSeatWrites(i, services[i]), ResetWrites(services, i + 1));
      RunResetSeat(m, i, services[i]);
      var m' := m[i := Seat(0, FREE, FREE, services[i])];
      RunReset(m', services, i + 1);
      assert m'[..i + 1] + Cleared(services)[i + 1..] == m[..i] + Cleared(services)[i..];
    } else {
      assert m[..i] + Cleared(services)[i..] == m;
    }
  }

  // ---------- searches ----------

  predicate Vacant(m: seq<Seat>, i: int, k: int) {
    0 <= i < |m| && m[i].operator == FREE && m[i].service == k
  }

  predicate Staffed(m: seq<Seat>, i: int, k: int) {
    0 <= i < |m| && m[i].operator == OCCUPIED && m[i].service == k
  }

  /** The lowest seat from `from` on that is free for service k, or -1. */
  function FindSeat(m: seq<Seat>, k: int, from: nat := 0): (i: int)
    requires from <= |m|
    ensures i == -1 <==> forall j | from <= j < |m| :: !Vacant(m, j, k)
    ensures i != -1 ==> from <= i && Vacant(m, i, k) && forall j | from <= j < i :: !Vacant(m, j, k)
    decreases |m| - from
  {
    if from == |m| then -1
    else if Vacant(m, from, k) then from
    else FindSeat(m, k, from + 1)
  }

  /** The staffed seats for service k below n, in increasing order. */
  function ValidSeats(m: seq<Seat>, k: int, n: nat): (v: seq<int>)
    requires n <= |m|
    ensures forall i :: i in v <==> i < n && Staffed(m, i, k)
    ensures forall a, b | 0 <= a < b < |v| :: v[a] < v[b]
  {
    if n == 0 then []
    else
      var below := ValidSeats(m, k, n - 1);
      assert forall a | 0 <= a < |below| :: below[a] in below;
      if Staffed(m, n - 1, k) then below + [n - 1] else below
  }

  predicate Offered(m: seq<Seat>, i: int) {
    0 <= i < |m| && m[i].user == FREE
  }

  /** The first seat of the list that no user occupies, or -1. */
  function FirstOffered(m: seq<Seat>, valid: seq<int>, from: nat := 0): (i: int)
    requires from <= |valid|
    ensures i == -1 <==> forall a | from <= a < |valid| :: !Offered(m, valid[a])
    ensures i != -1 ==>
      exists a :: from <= a < |valid| && valid[a] == i && Offered(m, i)
               && forall b | from <= b < a :: !Offered(m, valid[b])
    decreases |valid| - from
  {
    if from == |valid| then -1
    else if Offered(m, valid[from]) then valid[from]
    else FirstOffered(m, valid, from + 1)
  }
}
