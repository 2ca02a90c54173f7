/**
 * The pure pieces of the dashboard component (App.tsx): the signal cycle,
 * the capped event log, the synthetic vehicle built from random draws, the
 * evidence image references and the confirm-by-id update of the violation
 * list. The stateful component that uses them is module App.
 */
module Simulation {
  import opened Types
  import Decimal

  // ---------------------------------------------------------------------
  // Signal cycle

  /** Position of a phase in the cycle that starts at GREEN. */
  function Phase(s: SignalState): (k: nat)
    ensures k < 3
    ensures k == 0 <==> s == Green
  {
    match s
    case Green => 0
    case Yellow => 1
    case Red => 2
  }

  lemma PhaseInjective(a: SignalState, b: SignalState)
    requires Phase(a) == Phase(b)
    ensures a == b
  {
  }

  /** One timer tick: GREEN to YELLOW, YELLOW to RED, anything else to GREEN. */
  function NextSignal(s: SignalState): (r: SignalState)
    ensures Phase(r) == (Phase(s) + 1) % 3
    ensures r != s
  {
    if s == Green then Yellow
    else if s == Yellow then Red
    else Green
  }

  /** The phase after n ticks and no override. */
  function Ticks(s: SignalState, n: nat): SignalState
    decreases n
  {
    if n == 0 then s else NextSignal(Ticks(s, n - 1))
  }

  lemma {:induction false} TicksPhase(s: SignalState, n: nat)
    ensures Phase(Ticks(s, n)) == (Phase(s) + n) % 3
    decreases n
  {
    if n > 0 {
      TicksPhase(s, n - 1);
      var a := Phase(s) + n - 1;
      assert a == 3 * (a / 3) + a % 3;
      assert (a % 3 + 1) % 3 == (a + 1) % 3 by {
        if a % 3 == 2 {
          assert a + 1 == 3 * (a / 3 + 1);
        } else {
          assert a + 1 == 3 * (a / 3) + (a % 3 + 1);
        }
      }
    }
  }

  /** Three ticks bring every phase back to itself, and no fewer do. */
  lemma CycleOfThree(s: SignalState, n: nat)
    ensures Ticks(s, n) == s <==> n % 3 == 0
    ensures Ticks(s, n + 3) == Ticks(s, n)
  {
    TicksPhase(s, n);
    TicksPhase(s, n + 3);
    if n % 3 == 0 {
      PhaseInjective(Ticks(s, n), s);
    }
    PhaseInjective(Ticks(s, n + 3), Ticks(s, n));
  }

  /** From the initial GREEN the phases seen are GREEN, YELLOW, RED, GREEN, ... */
  lemma {:induction false} FromGreen(n: nat)
    ensures Ticks(Green, n) == [Green, Yellow, Red][n % 3]
  {
    TicksPhase(Green, n);
    PhaseInjective(Ticks(Green, n), [Green, Yellow, Red][n % 3]);
  }

  // ---------------------------------------------------------------------
  // Event log

  /** The log keeps at most this many messages. */
  const LogCapacity: nat := 15

  /** The first n elements of s, or all of s when it is shorter. */
  function Take<T>(s: seq<T>, n: nat): (r: seq<T>)
    ensures |r| == if |s| <= n then |s| else n
    ensures r == s[..|r|]
  {
    if |s| <= n then s else s[..n]
  }

  /** The log after a message is added: newest first, at most LogCapacity. */
  function PushLog(logs: seq<string>, msg: string): (r: seq<string>)
    ensures |r| == if |logs| < LogCapacity then |logs| + 1 else LogCapacity
    ensures r[0] == msg
    ensures forall i :: 0 < i < |r| ==> r[i] == logs[i - 1]
  {
    Take([msg] + logs, LogCapacity)
  }

  /** The log after the messages of msgs were added, first one first. */
  function PushAll(logs: seq<string>, msgs: seq<string>): seq<string>
    decreases |msgs|
  {
    if msgs == [] then logs else PushAll(PushLog(logs, msgs[0]), msgs[1..])
  }

  function Reverse<T>(s: seq<T>): (r: seq<T>)
    ensures |r| == |s|
    ensures forall i :: 0 <= i < |s| ==> r[i] == s[|s| - 1 - i]
  {
    if s == [] then [] else Reverse(s[1..]) + [s[0]]
  }

  lemma TakeAfterTake<T>(a: seq<T>, b: seq<T>, n: nat)
    ensures Take(a + Take(b, n), n) == Take(a + b, n)
  {
    if |b| > n {
      assert (a + b)[..n] == (a + b[..n])[..n];
    }
  }

  /**
   * Whatever was added, the log holds the LogCapacity most recent messages,
   * newest first, followed by as much of the earlier log as still fits.
   */
  lemma {:induction false} PushAllNewestFirst(logs: seq<string>, msgs: seq<string>)
    requires |logs| <= LogCapacity
    ensures PushAll(logs, msgs) == Take(Reverse(msgs) + logs, LogCapacity)
    decreases |msgs|
  {
    if msgs != [] {
      var rest := msgs[1..];
      PushAllNewestFirst(PushLog(logs, msgs[0]), rest);
      TakeAfterTake(Reverse(rest), [msgs[0]] + logs, LogCapacity);
      assert Reverse(rest) + ([msgs[0]] + logs) == Reverse(msgs) + logs;
    }
  }

  // ---------------------------------------------------------------------
  // Synthetic vehicle

  const PlatePrefix: string := "MH 12 "
  const SeriesCodes: seq<string> := ["TX", "BJ", "KP"]
  /** The order in which the vehicle class is drawn (SUV comes first). */
  const KindsInDrawOrder: seq<VehicleType> := [SUV, Sedan, Truck, Motorcycle]
  const Colors: seq<string> := ["Silver", "Black", "White", "Blue", "Red"]

  /**
   * The random draws that make up one vehicle: its id string, the index of
   * the plate series, floor(random * 9000) for the plate number, and the
   * indices of the class and the colour.
   */
  datatype VehicleDraw = VehicleDraw(vehicleId: string, series: int, offset: int, kind: int, color: int)

  predicate ValidDraw(d: VehicleDraw)
  {
    && 0 <= d.series < |SeriesCodes|
    && 0 <= d.offset < 9000
    && 0 <= d.kind < |KindsInDrawOrder|
    && 0 <= d.color < |Colors|
  }

  /** The plate's layout: prefix, series code, a space, then the number's digits. */
  function Plate(series: int, number: nat): (r: string)
    requires 0 <= series < |SeriesCodes|
    ensures |r| == 9 + |Decimal.Show(number)|
    ensures r[..6] == PlatePrefix && r[6..8] == SeriesCodes[series] && r[8] == ' '
    ensures r[9..] == Decimal.Show(number)
  {
    PlatePrefix + SeriesCodes[series] + " " + Decimal.Show(number)
  }

  /** The shape of a plate the simulator issues: "MH 12 XX dddd". */
  predicate WellFormedPlate(p: string)
  {
    && |p| == 13
    && p[..6] == PlatePrefix
    && p[6..8] in SeriesCodes
    && p[8] == ' '
    && Decimal.AllDigits(p[9..])
  }

  /** The number at the end of a well-formed plate. */
  function PlateNumber(p: string): nat
    requires WellFormedPlate(p)
  {
    Decimal.Value(p[9..])
  }

  /** A plate reads back as the series and the number it was built from. */
  lemma PlateReadsBack(series: int, number: nat)
    requires 0 <= series < |SeriesCodes| && 1000 <= number <= 9999
    ensures WellFormedPlate(Plate(series, number))
    ensures Plate(series, number)[6..8] == SeriesCodes[series]
    ensures PlateNumber(Plate(series, number)) == number
  {
    var p := Plate(series, number);
    Decimal.ShowFourDigits(number);
    Decimal.ShowValue(number);
    assert p[9..] == Decimal.Show(number);
    assert p[6..8] == SeriesCodes[series];
  }

  /** Different draws of series or number give different plates. */
  lemma PlateInjective(s1: int, n1: nat, s2: int, n2: nat)
    requires 0 <= s1 < |SeriesCodes| && 1000 <= n1 <= 9999
    requires 0 <= s2 < |SeriesCodes| && 1000 <= n2 <= 9999
    requires Plate(s1, n1) == Plate(s2, n2)
    ensures s1 == s2 && n1 == n2
  {
    PlateReadsBack(s1, n1);
    PlateReadsBack(s2, n2);
  }

  /** The vehicle the simulator fabricates from one set of draws. */
  function DrawVehicle(d: VehicleDraw): (v: Vehicle)
    requires ValidDraw(d)
    ensures v.id == d.vehicleId
    ensures WellFormedPlate(v.plate) && 1000 <= PlateNumber(v.plate) <= 9999
    ensures v.color in Colors
  {
    PlateReadsBack(d.series, 1000 + d.offset);
    Vehicle(d.vehicleId, Plate(d.series, 1000 + d.offset), KindsInDrawOrder[d.kind], Colors[d.color])
  }

  /** The draw index that yields a given vehicle class: every class can be drawn. */
  function KindDraw(t: VehicleType): (i: nat)
    ensures i < |KindsInDrawOrder| && KindsInDrawOrder[i] == t
  {
    match t
    case SUV => 0
    case Sedan => 1
    case Truck => 2
    case Motorcycle => 3
  }

  /**
   * The autonomous trigger fires when a uniform draw exceeds 0.6; here the
   * draw is its first decimal digit, roll in 0..9.
   */
  function AutoFires(roll: int): bool
    requires 0 <= roll < 10
  {
    roll >= 6
  }

  /** Four of the ten rolls fire: a 40% chance. */
  lemma AutoFiresFortyPercent()
    ensures |set roll | 0 <= roll < 10 && AutoFires(roll)| == 4
  {
    var fires := set roll | 0 <= roll < 10 && AutoFires(roll);
    assert fires == {6, 7, 8, 9};
  }

  // ---------------------------------------------------------------------
  // Evidence and violation records

  const EvidenceHost: string := "https://picsum.photos/seed/"
  const EvidenceSize: string := "/400/225"

  /** The placeholder image for one pole, seeded by the vehicle id and the pole number. */
  function EvidenceUrl(vehicleId: string, pole: Pole): (r: string)
    ensures |r| == |EvidenceHost| + |vehicleId| + 1 + |EvidenceSize|
    ensures r[..|EvidenceHost|] == EvidenceHost
    ensures r[|EvidenceHost|..|EvidenceHost| + |vehicleId|] == vehicleId
    ensures r[|EvidenceHost| + |vehicleId|] == Decimal.DigitChar(pole)
    ensures r[|EvidenceHost| + |vehicleId| + 1..] == EvidenceSize
  {
    EvidenceHost + vehicleId + Decimal.Show(pole) + EvidenceSize
  }

  /** The image reference determines both the vehicle id and the pole. */
  lemma EvidenceUrlInjective(a: string, p: Pole, b: string, q: Pole)
    requires EvidenceUrl(a, p) == EvidenceUrl(b, q)
    ensures a == b && p == q
  {
  }

  /** The two images of one violation are never the same reference. */
  lemma EvidenceDiffers(vehicleId: string)
    ensures EvidenceUrl(vehicleId, 1) != EvidenceUrl(vehicleId, 2)
  {
  }

  /** A detection sequence in flight: the vehicle seen at pole 1, and when. */
  datatype Run = Run(vehicle: Vehicle, pole1Time: int)

  /** The record created at the pole-2 match. */
  function NewViolation(id: string, run: Run, pole2Time: int): (v: Violation)
    ensures Lifecycle(v) && v.status == Pending && v.aiJustification == None
    ensures v.id == id && v.vehicle == run.vehicle
    ensures v.startTime == run.pole1Time && v.endTime == pole2Time
    ensures v.pole1Evidence == EvidenceUrl(run.vehicle.id, 1) && v.pole2Evidence == EvidenceUrl(run.vehicle.id, 2)
    ensures v.pole1Evidence != v.pole2Evidence
  {
    EvidenceDiffers(run.vehicle.id);
    Violation(id, run.vehicle, run.pole1Time, pole2Time, Pending,
              EvidenceUrl(run.vehicle.id, 1), EvidenceUrl(run.vehicle.id, 2), None)
  }

  /** The record v once its justification has arrived. */
  function WithReport(v: Violation, report: string): (r: Violation)
    ensures r.status == Confirmed && r.aiJustification == Some(report)
    ensures r.(status := v.status, aiJustification := v.aiJustification) == v
    ensures report != "" ==> Lifecycle(r)
  {
    v.(status := Confirmed, aiJustification := Some(report))
  }

  /** Every record whose id is id is confirmed with report; the others are kept. */
  function ConfirmById(vs: seq<Violation>, id: string, report: string): (r: seq<Violation>)
    ensures |r| == |vs|
  {
    if vs == [] then []
    else [if vs[0].id == id then WithReport(vs[0], report) else vs[0]] + ConfirmById(vs[1..], id, report)
  }

  /**
   * Position by position, the update touches only the records whose id
   * matches, and of those only the status and the justification.
   */
  lemma {:induction false} ConfirmByIdAt(vs: seq<Violation>, id: string, report: string, k: nat)
    requires k < |vs|
    ensures vs[k].id == id ==> ConfirmById(vs, id, report)[k] == vs[k].(status := Confirmed, aiJustification := Some(report))
    ensures vs[k].id != id ==> ConfirmById(vs, id, report)[k] == vs[k]
    decreases k
  {
    if k > 0 {
      ConfirmByIdAt(vs[1..], id, report, k - 1);
    }
  }

  /** Confirming keeps every record within its lifecycle. */
  lemma {:induction false} ConfirmByIdLifecycle(vs: seq<Violation>, id: string, report: string)
    requires report != ""
    requires forall v :: v in vs ==> Lifecycle(v)
    ensures forall v :: v in ConfirmById(vs, id, report) ==> Lifecycle(v)
  {
    var r := ConfirmById(vs, id, report);
    forall v | v in r
      ensures Lifecycle(v)
    {
      var k :| 0 <= k < |r| && r[k] == v;
      ConfirmByIdAt(vs, id, report, k);
    }
  }

  /** Confirming an id no record carries changes nothing. */
  lemma {:induction false} ConfirmByIdAbsent(vs: seq<Violation>, id: string, report: string)
    requires forall v :: v in vs ==> v.id != id
    ensures ConfirmById(vs, id, report) == vs
  {
    var r := ConfirmById(vs, id, report);
    forall k | 0 <= k < |vs|
      ensures r[k] == vs[k]
    {
      ConfirmByIdAt(vs, id, report, k);
    }
  }

  /** Confirming the same id with the same report twice is confirming it once. */
  lemma {:induction false} ConfirmByIdIdempotent(vs: seq<Violation>, id: string, report: string)
    ensures ConfirmById(ConfirmById(vs, id, report), id, report) == ConfirmById(vs, id, report)
  {
    var once := ConfirmById(vs, id, report);
    var twice := ConfirmById(once, id, report);
    forall k | 0 <= k < |vs|
      ensures twice[k] == once[k]
    {
      ConfirmByIdAt(vs, id, report, k);
      ConfirmByIdAt(once, id, report, k);
    }
  }

  /**
   * When the fresh record's id is not reused by an older one, confirming it
   * updates the head and leaves the older records exactly as they were.
   */
  lemma ConfirmFreshHead(v: Violation, vs: seq<Violation>, report: string)
    requires forall w :: w in vs ==> w.id != v.id
    ensures ConfirmById([v] + vs, v.id, report) == [WithReport(v, report)] + vs
  {
    assert ([v] + vs)[1..] == vs;
    ConfirmByIdAbsent(vs, v.id, report);
  }
}
