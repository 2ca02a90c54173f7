/**
 * The records of the enforcement dashboard (types.ts): the traffic signal,
 * the vehicles the simulated cameras see, the per-pole detection events and
 * the violation records built from them.
 */
module Types {

  datatype Option<+T> = None | Some(value: T)

  /** The three phases of the junction's signal. */
  datatype SignalState = Red | Yellow | Green

  /** The string value each signal phase carries in the enumeration. */
  function SignalName(s: SignalState): (r: string)
    ensures r == "RED" <==> s == Red
    ensures r == "YELLOW" <==> s == Yellow
    ensures r == "GREEN" <==> s == Green
  {
    match s
    case Red => "RED"
    case Yellow => "YELLOW"
    case Green => "GREEN"
  }

  /** The only vehicle classes a record may carry. */
  datatype VehicleType = Sedan | SUV | Truck | Motorcycle

  function VehicleTypeName(t: VehicleType): (r: string)
    ensures r in {"Sedan", "SUV", "Truck", "Motorcycle"}
  {
    match t
    case Sedan => "Sedan"
    case SUV => "SUV"
    case Truck => "Truck"
    case Motorcycle => "Motorcycle"
  }

  /** Distinct vehicle classes print as distinct names. */
  lemma VehicleTypeNameInjective(a: VehicleType, b: VehicleType)
    requires VehicleTypeName(a) == VehicleTypeName(b)
    ensures a == b
  {
  }

  datatype Vehicle = Vehicle(id: string, plate: string, kind: VehicleType, color: string)

  /** A camera pole: the stop line (1) or the confirmation point (2). */
  type Pole = p: int | p == 1 || p == 2 witness 1

  datatype DetectionEvent = DetectionEvent(
    id: string,
    vehicle: Vehicle,
    timestamp: int,
    pole: Pole,
    signalAtTime: SignalState,
    snapshotUrl: string)

  /** DISMISSED is declared but no handler of the application assigns it. */
  datatype ViolationStatus = Pending | Confirmed | Dismissed

  datatype Violation = Violation(
    id: string,
    vehicle: Vehicle,
    startTime: int,
    endTime: int,
    status: ViolationStatus,
    pole1Evidence: string,
    pole2Evidence: string,
    aiJustification: Option<string>)

  /**
   * The two states a record can be in under the application's handlers:
   * freshly created (PENDING, no justification) or confirmed with a
   * non-empty justification attached.
   */
  predicate Lifecycle(v: Violation)
    ensures Lifecycle(v) ==> v.status != Dismissed
    ensures Lifecycle(v) ==> (v.status == Confirmed <==> v.aiJustification.Some?)
  {
    || (v.status == Pending && v.aiJustification == None)
    || (v.status == Confirmed && v.aiJustification.Some? && v.aiJustification.value != "")
  }
}
