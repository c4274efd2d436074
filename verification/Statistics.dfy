/** The statistics record, the single-field writes made to it, and what each update amounts to. */
module Statistics {
  import opened Settings
  import opened SharedRecord

  /** The counters kept per service and globally. */
  datatype Tally = Tally(served: int, failed: int, wait: real, time: real, requests: int, late: int)

  const NOTHING := Tally(0, 0, 0.0, 0.0, 0, 0)

  function Plus(a: Tally, b: Tally): Tally {
    Tally(a.served + b.served, a.failed + b.failed, a.wait + b.wait, a.time + b.time,
          a.requests + b.requests, a.late + b.late)
  }

  function Served(): Tally { NOTHING.(served := 1) }
  function Failed(): Tally { NOTHING.(failed := 1) }
  function Waited(w: real): Tally { NOTHING.(wait := w) }
  function Took(t: real): Tally { NOTHING.(time := t) }
  function Requested(): Tally { NOTHING.(requests := 1) }
  function CameLate(): Tally { NOTHING.(late := 1) }
  function Completed(w: real, t: real): Tally { Tally(1, 0, w, t, 0, 0) }

  /** A global tally beside one tally per service. */
  datatype Book = Book(global: Tally, services: seq<Tally>)

  function EmptyBook(): Book {
    Book(NOTHING, [NOTHING, NOTHING, NOTHING, NOTHING, NOTHING, NOTHING])
  }

  function AddService(b: Book, k: int, d: Tally): Book {
    if 0 <= k < |b.services| then b.(services := b.services[k := Plus(b.services[k], d)]) else b
  }

  function AddGlobal(b: Book, d: Tally): Book {
    b.(global := Plus(b.global, d))
  }

  /** One event booked both globally and under its service. */
  function Enter(b: Book, k: int, d: Tally): Book {
    AddService(AddGlobal(b, d), k, d)
  }

  /** Late users, pauses and active operators of the day, and the two totals of the simulation. */
  datatype Counts = Counts(lateToday: int, pausesToday: int, activeToday: int, pauses: int, active: int)

  /** `tick` is a history variable: the number of clock ticks the stored minute stands for. */
  datatype Clock = Clock(day: int, minute: int, tick: nat)

  datatype Stats = Stats(sim: Book, today: Book, counts: Counts, clock: Clock)

  /** One assignment to one field. */
  datatype StatWrite =
    | SimGlobal(d: Tally)
    | SimService(k: int, d: Tally)
    | TodayGlobal(d: Tally)
    | TodayService(k: int, d: Tally)
    | LateToday
    | Pauses
    | PausesToday
    | Active
    | ActiveToday
    | SetDay(day: int)
    | ClearToday
    | SetMinute(minute: int, tick: nat)

  function NewDayCounts(n: Counts): Counts {
    n.(lateToday := 0, pausesToday := 0, activeToday := 0)
  }

  function ApplyStat(m: Stats, w: StatWrite): Stats {
    match w
    case SimGlobal(d) => m.(sim := AddGlobal(m.sim, d))
    case SimService(k, d) => m.(sim := AddService(m.sim, k, d))
    case TodayGlobal(d) => m.(today := AddGlobal(m.today, d))
    case TodayService(k, d) => m.(today := AddService(m.today, k, d))
    case LateToday => m.(counts := m.counts.(lateToday := m.counts.lateToday + 1))
    case Pauses => m.(counts := m.counts.(pauses := m.counts.pauses + 1))
    case PausesToday => m.(counts := m.counts.(pausesToday := m.counts.pausesToday + 1))
    case Active => m.(counts := m.counts.(active := m.counts.active + 1))
    case ActiveToday => m.(counts := m.counts.(activeToday := m.counts.activeToday + 1))
    case SetDay(day) => m.(clock := m.clock.(day := day))
    case ClearToday => m.(today := EmptyBook(), counts := NewDayCounts(m.counts))
    case SetMinute(minute, tick) => m.(clock := m.clock.(minute := minute, tick := tick))
  }

  // The writes of each locked section, in program order.

  function SuccessWrites(k: int, w: real, t: real): seq<StatWrite> {
    [SimGlobal(Served()), SimGlobal(Waited(w)), SimGlobal(Took(t)),
     SimService(k, Served()), SimService(k, Waited(w)), SimService(k, Took(t)),
     TodayGlobal(Served()), TodayService(k, Served()),
     TodayService(k, Waited(w)), TodayService(k, Took(t)),
     TodayGlobal(Waited(w)), TodayGlobal(Took(t))]
  }

  function FailWrites(k: int): seq<StatWrite> {
    [SimGlobal(Failed()), SimService(k, Failed()), TodayGlobal(Failed()), TodayService(k, Failed())]
  }

  function RequestWrites(k: int): seq<StatWrite> {
    [SimService(k, Requested()), SimGlobal(Requested()), TodayService(k, Requested()), TodayGlobal(Requested())]
  }

  /** A user counts as late at most once a day: its own flag guards the section. */
  function LateWrites(k: int, already: bool): seq<StatWrite> {
    if already then [] else [LateToday, SimGlobal(CameLate()), SimService(k, CameLate())]
  }

  function PauseWrites(): seq<StatWrite> {
    [Pauses, PausesToday]
  }

  function ActiveWrites(): seq<StatWrite> {
    [Active, ActiveToday]
  }

  function NewDayWrites(day: int): seq<StatWrite> {
    [SetDay(day), ClearToday]
  }

  function ClockWrites(minute: int, tick: nat): seq<StatWrite> {
    [SetMinute(minute, tick)]
  }

  /** What a completed section does to the record. */
  datatype Change =
    | Unchanged
    | Booked(k: int, d: Tally)
    | LateAt(k: int)
    | Paused
    | Worked
    | NewDay(day: int)
    | Ticked(minute: int, tick: nat)

  function ApplyChange(m: Stats, ch: Change): Stats {
    match ch
    case Unchanged => m
    case Booked(k, d) => m.(sim := Enter(m.sim, k, d), today := Enter(m.today, k, d))
    case LateAt(k) => m.(sim := Enter(m.sim, k, CameLate()), counts := m.counts.(lateToday := m.counts.lateToday + 1))
    case Paused => m.(counts := m.counts.(pauses := m.counts.pauses + 1, pausesToday := m.counts.pausesToday + 1))
    case Worked => m.(counts := m.counts.(active := m.counts.active + 1, activeToday := m.counts.activeToday + 1))
    case NewDay(day) => m.(today := EmptyBook(), counts := NewDayCounts(m.counts), clock := m.clock.(day := day))
    case Ticked(minute, tick) => m.(clock := m.clock.(minute := minute, tick := tick))
  }

  lemma RunSuccess(m: Stats, k: int, w: real, t: real)
    ensures Run(ApplyStat, m, SuccessWrites(k, w, t)) == ApplyChange(m, Booked(k, Completed(w, t)))
  {
    var ws := SuccessWrites(k, w, t);
    assert ws == ws[..4] + (ws[4..8] + ws[8..]);
    RunConcat(ApplyStat, m, ws[..4], ws[4..8] + ws[8..]);
    Run4(ApplyStat, m, ws[0], ws[1], ws[2], ws[3]);
    assert ws[..4] == [ws[0], ws[1], ws[2], ws[3]];
    var m4 := Run(ApplyStat, m, ws[..4]);
    RunConcat(ApplyStat, m4, ws[4..8], ws[8..]);
    Run4(ApplyStat, m4, ws[4], ws[5], ws[6], ws[7]);
    assert ws[4..8] == [ws[4], ws[5], ws[6], ws[7]];
    var m8 := Run(ApplyStat, m4, ws[4..8]);
    Run4(ApplyStat, m8, ws[8], ws[9], ws[10], ws[11]);
    assert ws[8..] == [ws[8], ws[9], ws[10], ws[11]];
  }

  lemma RunFail(m: Stats, k: int)
    ensures Run(ApplyStat, m, FailWrites(k)) == ApplyChange(m, Booked(k, Failed()))
  {
    var ws := FailWrites(k);
    Run4(ApplyStat, m, ws[0], ws[1], ws[2], ws[3]);
  }

  lemma RunRequest(m: Stats, k: int)
    ensures Run(ApplyStat, m, RequestWrites(k)) == ApplyChange(m, Booked(k, Requested()))
  {
    var ws := RequestWrites(k);
    Run4(ApplyStat, m, ws[0], ws[1], ws[2], ws[3]);
  }

  lemma RunLate(m: Stats, k: int, already: bool)
    ensures Run(ApplyStat, m, LateWrites(k, already)) == ApplyChange(m, if already then Unchanged else LateAt(k))
  {
    if !already {
      var ws := LateWrites(k, false);
      assert ws == [ws[0]] + [ws[1], ws[2]];
      RunConcat(ApplyStat, m, [ws[0]], [ws[1], ws[2]]);
      Run1(ApplyStat, m, ws[0]);
      Run2(ApplyStat, ApplyStat(m, ws[0]), ws[1], ws[2]);
    }
  }

  lemma RunShort(m: Stats, day: int, minute: int, tick: nat)
    ensures Run(ApplyStat, m, PauseWrites()) == ApplyChange(m, Paused)
    ensures Run(ApplyStat, m, ActiveWrites()) == ApplyChange(m, Worked)
    ensures Run(ApplyStat, m, NewDayWrites(day)) == ApplyChange(m, NewDay(day))
    ensures Run(ApplyStat, m, ClockWrites(minute, tick)) == ApplyChange(m, Ticked(minute, tick))
  {
    Run2(ApplyStat, m, Pauses, PausesToday);
    Run2(ApplyStat, m, Active, ActiveToday);
    Run2(ApplyStat, m, SetDay(day), ClearToday);
    Run1(ApplyStat, m, SetMinute(minute, tick));
  }

  // ---------- the ledger ----------

  function Total(s: seq<Tally>): Tally {
    if |s| == 0 then NOTHING else Plus(Total(s[..|s| - 1]), s[|s| - 1])
  }

  lemma {:induction false} TotalAdd(s: seq<Tally>, k: nat, d: Tally)
    requires k < |s|
    ensures Total(s[k := Plus(s[k], d)]) == Plus(Total(s), d)
  {
    var s' := s[k := Plus(s[k], d)];
    var n := |s| - 1;
    if k == n {
      assert s'[..n] == s[..n];
    } else {
      assert s'[..n] == s[..n][k := Plus(s[..n][k], d)];
      TotalAdd(s[..n], k, d);
    }
  }

  /** Every global field is the sum of that field over the six services. */
  ghost predicate Balanced(b: Book) {
    |b.services| == SERVICES && b.global == Total(b.services)
  }

  lemma {:induction false} TotalOfNothing(s: seq<Tally>)
    requires forall i | 0 <= i < |s| :: s[i] == NOTHING
    ensures Total(s) == NOTHING
  {
    if s != [] {
      TotalOfNothing(s[..|s| - 1]);
    }
  }

  ghost predicate Blank(b: Book) {
    b.global == NOTHING && |b.services| == SERVICES && forall k | IsService(k) :: b.services[k] == NOTHING
  }

  lemma EmptyIsBlank()
    ensures Blank(EmptyBook())
  {
  }

  lemma BlankIsBalanced(b: Book)
    requires Blank(b)
    ensures Balanced(b)
  {
    TotalOfNothing(b.services);
  }

  lemma EnterBalanced(b: Book, k: int, d: Tally)
    requires Balanced(b) && IsService(k)
    ensures Balanced(Enter(b, k, d))
  {
    TotalAdd(b.services, k, d);
  }

  /** What one archived day leaves behind. */
  datatype DayRecord = DayRecord(book: Book, late: int, pauses: int, active: int)

  function ThisDay(m: Stats): DayRecord {
    DayRecord(m.today, m.counts.lateToday, m.counts.pausesToday, m.counts.activeToday)
  }

  function NoLate(t: Tally): Tally { t.(late := 0) }

  function ServiceOf(b: Book, k: int): Tally {
    if 0 <= k < |b.services| then b.services[k] else NOTHING
  }

  // Sums over the archived days.

  function PastGlobal(days: seq<DayRecord>): Tally {
    if |days| == 0 then NOTHING
    else Plus(PastGlobal(days[..|days| - 1]), days[|days| - 1].book.global)
  }

  function PastService(days: seq<DayRecord>, k: int): Tally {
    if |days| == 0 then NOTHING
    else Plus(PastService(days[..|days| - 1], k), ServiceOf(days[|days| - 1].book, k))
  }

  /** Late users, pauses and active operators of the archived days. */
  function PastCounts(days: seq<DayRecord>): (int, int, int) {
    if |days| == 0 then (0, 0, 0)
    else
      var (l, p, a) := PastCounts(days[..|days| - 1]);
      var d := days[|days| - 1];
      (l + d.late, p + d.pauses, a + d.active)
  }

  /** A simulation total is the archived days plus today, late users apart: the daily books never record those. */
  ghost predicate Carried(sim: Tally, past: Tally, today: Tally) {
    today.late == 0 && NoLate(sim) == Plus(past, today)
  }

  ghost predicate ServicesCarried(sim: seq<Tally>, past: seq<DayRecord>, today: seq<Tally>)
    requires |sim| == |today| == SERVICES
  {
    forall k | IsService(k) :: Carried(sim[k], PastService(past, k), today[k])
  }

  ghost predicate CountsCarried(m: Stats, past: (int, int, int)) {
    past == (m.sim.global.late - m.counts.lateToday, m.counts.pauses - m.counts.pausesToday,
             m.counts.active - m.counts.activeToday)
  }

  ghost predicate Ledger(m: Stats, past: seq<DayRecord>) {
    && Balanced(m.sim) && Balanced(m.today)
    && Carried(m.sim.global, PastGlobal(past), m.today.global)
    && ServicesCarried(m.sim.services, past, m.today.services)
    && CountsCarried(m, PastCounts(past))
  }

  function Archived(past: seq<DayRecord>, m: Stats, ch: Change): seq<DayRecord> {
    if ch.NewDay? then past + [ThisDay(m)] else past
  }

  lemma LedgerInitially(m: Stats)
    requires Blank(m.sim) && Blank(m.today)
    requires m.counts == Counts(0, 0, 0, 0, 0)
    ensures Ledger(m, [])
  {
    BlankIsBalanced(m.sim);
    BlankIsBalanced(m.today);
    NothingCarried(m);
  }

  lemma NothingCarried(m: Stats)
    requires Blank(m.sim) && Blank(m.today)
    ensures Carried(m.sim.global, PastGlobal([]), m.today.global) && PastCounts([]) == (0, 0, 0)
    ensures ServicesCarried(m.sim.services, [], m.today.services)
  {
  }

  lemma ArchivedSums(past: seq<DayRecord>, d: DayRecord, k: int)
    ensures PastGlobal(past + [d]) == Plus(PastGlobal(past), d.book.global)
    ensures PastService(past + [d], k) == Plus(PastService(past, k), ServiceOf(d.book, k))
    ensures PastCounts(past + [d])
         == (PastCounts(past).0 + d.late, PastCounts(past).1 + d.pauses, PastCounts(past).2 + d.active)
  {
    assert (past + [d])[..|past + [d]| - 1] == past;
  }

  predicate Bookable(ch: Change) {
    match ch
    case Booked(k, d) => IsService(k) && d.late == 0
    case LateAt(k) => IsService(k)
    case _ => true
  }

  lemma BookedKeepsLedger(m: Stats, past: seq<DayRecord>, k: int, d: Tally)
    requires Ledger(m, past) && IsService(k) && d.late == 0
    ensures Ledger(ApplyChange(m, Booked(k, d)), past)
  {
    EnterBalanced(m.sim, k, d);
    EnterBalanced(m.today, k, d);
  }

  lemma ArchivedServices(m: Stats, past: seq<DayRecord>, blank: seq<Tally>)
    requires |m.sim.services| == |m.today.services| == |blank| == SERVICES
    requires ServicesCarried(m.sim.services, past, m.today.services)
    requires forall k | IsService(k) :: blank[k] == NOTHING
    ensures ServicesCarried(m.sim.services, past + [ThisDay(m)], blank)
  {
    forall k | IsService(k) ensures Carried(m.sim.services[k], PastService(past + [ThisDay(m)], k), blank[k]) {
      ArchivedSums(past, ThisDay(m), k);
      assert Carried(m.sim.services[k], PastService(past, k), m.today.services[k]);
    }
  }

  lemma NewDayKeepsLedger(m: Stats, past: seq<DayRecord>, day: int)
    requires Ledger(m, past)
    ensures Ledger(ApplyChange(m, NewDay(day)), past + [ThisDay(m)])
  {
    EmptyIsBlank();
    BlankIsBalanced(EmptyBook());
    ArchivedServices(m, past, EmptyBook().services);
    ArchivedSums(past, ThisDay(m), 0);
  }

  lemma LedgerPreserved(m: Stats, past: seq<DayRecord>, ch: Change)
    requires Ledger(m, past) && Bookable(ch)
    ensures Ledger(ApplyChange(m, ch), Archived(past, m, ch))
  {
    match ch
    case Booked(k, d) => BookedKeepsLedger(m, past, k, d);
    case LateAt(k) => EnterBalanced(m.sim, k, CameLate());
    case NewDay(day) => NewDayKeepsLedger(m, past, day);
    case _ =>
  }
}
