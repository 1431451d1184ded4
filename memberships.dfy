/**
 * Memberships: the abstract `Membresia` with its four plans (basic, premium,
 * family, corporate).  The plan is a closed datatype; a membership is an
 * object whose status and payment history change in place.
 */
module Memberships {
  import opened Common

  // ---------------------------------------------------------------------------
  // Status
  // ---------------------------------------------------------------------------

  /** The three legal states of a membership. */
  datatype Status = Active | Suspended | Cancelled

  /** The name the system uses for each status. */
  function StatusName(s: Status): (r: string)
    ensures r in ["activa", "suspendida", "cancelada"]
  {
    match s
    case Active => "activa"
    case Suspended => "suspendida"
    case Cancelled => "cancelada"
  }

  /** The only names the status setter accepts. */
  const ValidStatusNames: seq<string> := ["activa", "suspendida", "cancelada"]

  const InvalidStatusMessage: string := "Estado inválido"

  /** Reads a status name: exactly the three legal names are recognised, and
      each is read back as the status that carries that name. */
  function ParseStatus(name: string): (r: Option<Status>)
    ensures r.Some? <==> name in ValidStatusNames
    ensures r.Some? ==> StatusName(r.value) == name
  {
    if name == "activa" then Some(Active)
    else if name == "suspendida" then Some(Suspended)
    else if name == "cancelada" then Some(Cancelled)
    else None
  }

  /** Every status survives the trip through its name. */
  lemma StatusNameRoundTrip(s: Status)
    ensures StatusName(s) in ValidStatusNames
    ensures ParseStatus(StatusName(s)) == Some(s)
  {
  }

  // ---------------------------------------------------------------------------
  // Plans
  // ---------------------------------------------------------------------------

  /** The four membership variants with the parameters their prices depend on. */
  datatype Plan =
    | Basic
    | Premium
    | Family(members: int)
    | Corporate(company: string, employees: int)

  /** Head counts that a real plan can have. */
  predicate WellFormed(p: Plan) {
    match p
    case Family(n) => n >= 0
    case Corporate(_, n) => n >= 0
    case _ => true
  }

  /** Group discount of the family plan. */
  const FamilyGroupDiscount: real := 0.15

  /** Monthly price of a plan. */
  function MonthlyCost(p: Plan): (r: real)
    ensures WellFormed(p) ==> r >= 0.0
  {
    match p
    case Basic => 30.0
    case Premium => 60.0
    case Family(n) => (40.0 * n as real) * (1.0 - FamilyGroupDiscount)
    case Corporate(_, n) => 25.0 * n as real
  }

  /** No plan with sensible head counts has a negative price; the family plan
      charges 34 per member and the corporate plan 25 per employee. */
  lemma MonthlyCostFacts(p: Plan)
    requires WellFormed(p)
    ensures MonthlyCost(p) >= 0.0
    ensures MonthlyCost(Basic) == 30.0 && MonthlyCost(Premium) == 60.0
    ensures p.Family? ==> MonthlyCost(p) == 34.0 * p.members as real
    ensures p.Corporate? ==> MonthlyCost(p) == 25.0 * p.employees as real
  {
  }

  /** Opening hours each plan allows. */
  function AllowedHours(p: Plan): string {
    match p
    case Basic => "6:00 AM - 2:00 PM"
    case Premium => "5:00 AM - 11:00 PM"
    case Family(_) => "6:00 AM - 10:00 PM"
    case Corporate(_, _) => "6:00 AM - 10:00 PM"
  }

  /** The family and corporate plans share one schedule whatever their head
      counts; basic and premium each have their own. */
  lemma AllowedHoursByPlan(p: Plan, q: Plan)
    ensures (p.Family? || p.Corporate?) && (q.Family? || q.Corporate?) ==> AllowedHours(p) == AllowedHours(q)
    ensures AllowedHours(Basic) != AllowedHours(Premium)
    ensures !p.Basic? ==> AllowedHours(p) != AllowedHours(Basic)
  {
  }

  /** Services included in each plan. */
  function IncludedServices(p: Plan): (r: seq<string>)
    ensures |r| >= 2 && r[0] == "Acceso a máquinas"
  {
    match p
    case Basic => ["Acceso a máquinas", "Vestuarios"]
    case Premium => ["Acceso a máquinas", "Clases grupales", "Spa", "Lockers", "Nutricionista", "Toallas"]
    case Family(_) => ["Acceso a máquinas", "Clases grupales", "Plan compartido"]
    case Corporate(_, _) => ["Acceso a máquinas", "Clases grupales", "Facturación empresarial"]
  }

  /** Every plan gives access to the machines; only premium includes the spa,
      and every plan but basic includes group classes. */
  lemma IncludedServicesByPlan(p: Plan)
    ensures "Acceso a máquinas" in IncludedServices(p)
    ensures "Spa" in IncludedServices(p) <==> p.Premium?
    ensures "Clases grupales" in IncludedServices(p) <==> !p.Basic?
  {
  }

  // ---------------------------------------------------------------------------
  // Renewal
  // ---------------------------------------------------------------------------

  /** Prepayment discount for renewing `months` months at once. */
  function Discount(months: int): (d: real)
    ensures 0.0 <= d <= 0.20
  {
    if months >= 12 then 0.20
    else if months >= 6 then 0.10
    else 0.0
  }

  /** The three discount tiers. */
  lemma DiscountTiers(months: int)
    ensures Discount(months) == 0.20 <==> months >= 12
    ensures Discount(months) == 0.10 <==> 6 <= months < 12
    ensures Discount(months) == 0.0 <==> months < 6
  {
  }

  /** Paying for more months never lowers the discount. */
  lemma DiscountMonotone(m1: int, m2: int)
    requires m1 <= m2
    ensures Discount(m1) <= Discount(m2)
  {
  }

  /** Undiscounted price of `months` months. */
  function BaseCost(p: Plan, months: int): (r: real)
    ensures WellFormed(p) && months >= 0 ==> r >= 0.0
  {
    MonthlyCost(p) * months as real
  }

  /** What a renewal for `months` months charges. */
  function RenewalCost(p: Plan, months: int): real {
    BaseCost(p, months) * (1.0 - Discount(months))
  }

  /** A renewal charges the base price less the tier's discount: never more
      than the base price and never less than 80% of it. */
  lemma RenewalCostBounds(p: Plan, months: int)
    requires WellFormed(p) && months >= 0
    ensures 0.8 * BaseCost(p, months) <= RenewalCost(p, months) <= BaseCost(p, months)
    ensures months < 6 ==> RenewalCost(p, months) == BaseCost(p, months)
  {
    MonthlyCostFacts(p);
    var b := BaseCost(p, months);
    assert b >= 0.0 by { NonNegativeProduct(MonthlyCost(p), months as real); }
    var d := Discount(months);
    assert b * (1.0 - d) == b - b * d;
    ScaleBelow(b, d, 0.20);
  }

  /** x * y >= 0 for non-negative x and y. */
  lemma NonNegativeProduct(x: real, y: real)
    requires x >= 0.0 && y >= 0.0
    ensures x * y >= 0.0
  {
  }

  /** 0 <= b * d <= b * e when b >= 0 and 0 <= d <= e. */
  lemma ScaleBelow(b: real, d: real, e: real)
    requires b >= 0.0 && 0.0 <= d <= e
    ensures 0.0 <= b * d <= b * e
  {
  }

  /** The annual prepayment of a basic plan costs 30 * 12 * 0.8 = 288. */
  lemma BasicAnnualRenewal()
    ensures RenewalCost(Basic, 12) == 288.0
  {
  }

  /** Because the discount jumps at 12 months, a paid-for plan costs less to
      renew for a whole year than for eleven months. */
  lemma AnnualUndercutsElevenMonths(p: Plan)
    requires MonthlyCost(p) > 0.0
    ensures RenewalCost(p, 12) < RenewalCost(p, 11)
  {

  }

  /** One entry of the payment history. */
  datatype Payment = Payment(date: string, months: int, baseCost: real, discount: real, finalCost: real)

  /** The history entry a renewal records. */
  function RenewalPayment(p: Plan, months: int, date: string): (r: Payment)
    ensures r.finalCost == r.baseCost * (1.0 - r.discount)
    ensures r.finalCost == RenewalCost(p, months)
    ensures r.months == months && r.date == date
    ensures r.baseCost == MonthlyCost(p) * months as real && r.discount == Discount(months)
  {
    Payment(date, months, BaseCost(p, months), Discount(months), RenewalCost(p, months))
  }

  // ---------------------------------------------------------------------------
  // The membership object
  // ---------------------------------------------------------------------------

  class Membership {
    const number: int
    const holder: string
    const startDate: string
    const plan: Plan
    const services: seq<string>
    var status: Status
    var payments: seq<Payment>

    /** A new membership is active, has no payments and includes its plan's services. */
    constructor (number: int, holder: string, startDate: string, plan: Plan)
      ensures this.number == number && this.holder == holder
      ensures this.startDate == startDate && this.plan == plan
      ensures services == IncludedServices(plan)
      ensures status == Active && payments == []
    {
      this.number := number;
      this.holder := holder;
      this.startDate := startDate;
      this.plan := plan;
      this.services := IncludedServices(plan);
      status := Active;
      payments := [];
    }

    /** The status setter: accepts exactly the three legal names; any other
        name fails and leaves the status as it was. */
    method SetStatus(name: string) returns (r: Outcome)
      modifies this`status
      ensures r.Pass? <==> name in ValidStatusNames
      ensures r.Pass? ==> StatusName(status) == name
      ensures r.Fail? ==> status == old(status) && r.error == InvalidStatusMessage
    {
      var parsed := ParseStatus(name);
      if parsed.Some? {
        status := parsed.value;
        r := Pass;
      } else {
        r := Fail(InvalidStatusMessage);
      }
    }

    /** Renews for `months` months at `date`: returns the discounted total and
        appends exactly one payment record, leaving earlier records alone. */
    method Renew(months: int, date: string) returns (total: real)
      modifies this`payments
      ensures total == RenewalCost(plan, months)
      ensures |payments| == |old(payments)| + 1
      ensures payments[..|old(payments)|] == old(payments)
      ensures payments[|old(payments)|] == RenewalPayment(plan, months, date)
    {
      var baseCost := MonthlyCost(plan) * months as real;
      var discount := Discount(months);
      total := baseCost * (1.0 - discount);
      payments := payments + [Payment(date, months, baseCost, discount, total)];
    }
  }
}
