/**
 * Equipment: the abstract `Equipo` with its four variants (cardio machine,
 * free weight, functional gear, accessory).  The variant is a closed
 * datatype; a piece of equipment is an object whose current value and
 * maintenance log change in place.
 */
module Equipment {

  /** The four variants with their descriptive attributes. */
  datatype EquipmentKind =
    | Cardio(machine: string)
    | Weight(kilograms: real, material: string)
    | FunctionalGear(gear: string)
    | Accessory(item: string, quantity: int)

  /** Annual depreciation rate of each variant. */
  function AnnualDepreciation(k: EquipmentKind): (r: real)
    ensures 0.05 <= r <= 0.25
  {
    match k
    case Cardio(_) => 0.15
    case Weight(_, _) => 0.05
    case FunctionalGear(_) => 0.10
    case Accessory(_, _) => 0.25
  }

  /** Days between maintenance visits for each variant. */
  function MaintenanceIntervalDays(k: EquipmentKind): (d: nat)
    ensures 15 <= d <= 180
  {
    match k
    case Cardio(_) => 30
    case Weight(_, _) => 180
    case FunctionalGear(_) => 60
    case Accessory(_, _) => 15
  }

  /** Every rate is a proper fraction, and the faster a variant loses value
      the more often it is serviced. */
  lemma RatesAndIntervals(a: EquipmentKind, b: EquipmentKind)
    ensures 0.0 < AnnualDepreciation(a) < 1.0
    ensures AnnualDepreciation(a) < AnnualDepreciation(b) <==> MaintenanceIntervalDays(a) > MaintenanceIntervalDays(b)
    ensures AnnualDepreciation(a) == AnnualDepreciation(b) <==> MaintenanceIntervalDays(a) == MaintenanceIntervalDays(b)
  {
  }

  /** Whole elapsed days expressed in years of 365 days. */
  function ElapsedYears(days: int): (y: real)
    ensures days >= 0 ==> y >= 0.0
    ensures y * 365.0 == days as real
  {
    days as real / 365.0
  }

  /** Straight-line depreciation of `original` at `rate` a year over
      `days` days, clamped at zero. */
  function DepreciatedValue(original: real, rate: real, days: int): (v: real)
    ensures v >= 0.0
    ensures v == 0.0 || v == original * (1.0 - rate * ElapsedYears(days))
    ensures v >= original * (1.0 - rate * ElapsedYears(days))
  {
    var raw := original * (1.0 - rate * ElapsedYears(days));
    if raw > 0.0 then raw else 0.0
  }

  /** With no time elapsed a non-negative value is unchanged. */
  lemma NoElapsedTimeKeepsValue(original: real, rate: real)
    requires original >= 0.0
    ensures DepreciatedValue(original, rate, 0) == original
  {
  }

  /** Value never rises as time passes. */
  lemma DepreciationMonotone(original: real, rate: real, d1: int, d2: int)
    requires original >= 0.0 && rate >= 0.0 && d1 <= d2
    ensures DepreciatedValue(original, rate, d2) <= DepreciatedValue(original, rate, d1)
  {
    var y1, y2 := ElapsedYears(d1), ElapsedYears(d2);
    assert y1 <= y2 by { assert y1 * 365.0 <= y2 * 365.0; }
    var a1, a2 := 1.0 - rate * y1, 1.0 - rate * y2;
    assert a2 <= a1 by { MulLeftMonotone(rate, y1, y2); }
    MulLeftMonotone(original, a2, a1);
    assert original * a2 <= original * a1;
  }

  /** Once rate * years reaches one, a non-negative value is written off. */
  lemma WrittenOff(original: real, rate: real, days: int)
    requires original >= 0.0 && rate * ElapsedYears(days) >= 1.0
    ensures DepreciatedValue(original, rate, days) == 0.0
  {

  }

  /** c * x <= c * y for c >= 0 and x <= y. */
  lemma MulLeftMonotone(c: real, x: real, y: real)
    requires c >= 0.0 && x <= y
    ensures c * x <= c * y
  {
    assert c * y - c * x == c * (y - x);
  }

  /** Days after which each variant is worth nothing. */
  function WriteOffDays(k: EquipmentKind): nat {
    match k
    case Cardio(_) => 2434
    case Weight(_, _) => 7300
    case FunctionalGear(_) => 3650
    case Accessory(_, _) => 1460
  }

  /** Every variant is fully written off after its write-off period. */
  lemma WrittenOffAfterPeriod(k: EquipmentKind, original: real, days: int)
    requires original >= 0.0 && days >= WriteOffDays(k)
    ensures DepreciatedValue(original, AnnualDepreciation(k), days) == 0.0
  {

  }

  /** A weight bought for 800 is worth 800 * (1 - 0.05 * 10) = 400 after ten years. */
  lemma WeightAfterTenYears(kilograms: real, material: string)
    ensures DepreciatedValue(800.0, AnnualDepreciation(Weight(kilograms, material)), 3650) == 400.0
  {

  }

  /** Total useful life in years. */
  const UsefulLifeYears: real := 10.0

  /** Years of useful life left after `days` days, never negative. */
  function RemainingUsefulLife(days: int): (r: real)
    ensures 0.0 <= r
    ensures days >= 0 ==> r <= UsefulLifeYears
    ensures r == 0.0 <==> days >= 3650
    ensures r == 0.0 || r == UsefulLifeYears - ElapsedYears(days)
  {
    var left := UsefulLifeYears - ElapsedYears(days);
    if left > 0.0 then left else 0.0
  }

  /** One maintenance log entry. */
  datatype Maintenance = Maintenance(date: string, kind: string, cost: real, performedBy: string)

  const Technician: string := "Técnico"

  class Equipment {
    const code: string
    const name: string
    const acquired: string
    const originalValue: real
    const kind: EquipmentKind
    var currentValue: real
    var maintenanceLog: seq<Maintenance>

    /** New equipment is worth what it cost and has no maintenance record. */
    constructor (code: string, name: string, acquired: string, value: real, kind: EquipmentKind)
      ensures this.code == code && this.name == name && this.acquired == acquired
      ensures originalValue == value && currentValue == value && this.kind == kind
      ensures maintenanceLog == []
    {
      this.code := code;
      this.name := name;
      this.acquired := acquired;
      this.originalValue := value;
      this.kind := kind;
      currentValue := value;
      maintenanceLog := [];
    }

    /** Records a maintenance visit by the technician: returns the entry and
        appends it to the log. */
    method RegisterMaintenance(date: string, maintenanceKind: string, cost: real) returns (m: Maintenance)
      modifies this`maintenanceLog
      ensures m == Maintenance(date, maintenanceKind, cost, Technician)
      ensures maintenanceLog == old(maintenanceLog) + [m]
    {
      m := Maintenance(date, maintenanceKind, cost, Technician);
      maintenanceLog := maintenanceLog + [m];
    }

    /** Revalues the equipment `elapsedDays` days after acquisition: the
        original value depreciated at the variant's rate, clamped at zero. */
    method UpdateValue(elapsedDays: int) returns (v: real)
      modifies this`currentValue
      ensures v == currentValue >= 0.0
      ensures v == DepreciatedValue(originalValue, AnnualDepreciation(kind), elapsedDays)
    {
      currentValue := DepreciatedValue(originalValue, AnnualDepreciation(kind), elapsedDays);
      v := currentValue;
    }
  }
}
