/**
 * Staff: the abstract `EmpleadoGimnasio` with its four roles (personal
 * trainer, group instructor, nutritionist, administrative).  Salaries are
 * computed on demand from each role's attributes, so a role is a value.
 */
module Employees {

  /** The four roles with the attributes their salary formulas read. */
  datatype Employee =
    | PersonalTrainer(hourlyRate: real, hoursWorked: real, activeClients: nat)
    | GroupInstructor(weeklyClasses: nat)
    | Nutritionist(consultationsPerDay: int)
    | Administrative(fixedSalary: real)

  const ClientBonus: real := 50.0
  const InstructorFixedSalary: real := 800.0
  const PayPerClass: real := 15.0
  const WeeksPerMonth: nat := 4
  const WorkingDaysPerMonth: int := 20
  const ConsultationFee: real := 40.0

  /** A trainer as hired: default rate 25 an hour, no hours, no clients. */
  function NewTrainer(): Employee {
    PersonalTrainer(25.0, 0.0, 0)
  }

  /** A nutritionist as hired: 8 consultations a day by default. */
  function NewNutritionist(): Employee {
    Nutritionist(8)
  }

  /** An administrative employee as hired: 1200 a month by default. */
  function NewAdministrative(): Employee {
    Administrative(1200.0)
  }

  /** Monthly salary of each role. */
  function Salary(e: Employee): (r: real)
    ensures e.GroupInstructor? ==> r >= InstructorFixedSalary
  {
    match e
    case PersonalTrainer(rate, hours, clients) => rate * hours + clients as real * ClientBonus
    case GroupInstructor(weekly) => InstructorFixedSalary + PayPerClass * (weekly * WeeksPerMonth) as real
    case Nutritionist(perDay) => (perDay * WorkingDaysPerMonth) as real * ConsultationFee
    case Administrative(fixed) => fixed
  }

  /** Attribute values a real employee can have. */
  predicate WellFormed(e: Employee) {
    match e
    case PersonalTrainer(rate, hours, _) => rate >= 0.0 && hours >= 0.0
    case GroupInstructor(_) => true
    case Nutritionist(perDay) => perDay >= 0
    case Administrative(fixed) => fixed >= 0.0
  }

  /** No well-formed employee earns a negative salary. */
  lemma SalaryNonNegative(e: Employee)
    requires WellFormed(e)
    ensures Salary(e) >= 0.0
  {

  }

  /** Each client adds 50 to a trainer's pay; each weekly class adds 60 to
      an instructor's, on top of a floor of 800; each daily consultation
      adds 800 to a nutritionist's. */
  lemma SalaryIncrements(e: Employee)
    ensures e.PersonalTrainer? ==>
      Salary(e.(activeClients := e.activeClients + 1)) == Salary(e) + ClientBonus
    ensures e.GroupInstructor? ==>
      Salary(e) == InstructorFixedSalary + 60.0 * e.weeklyClasses as real &&
      Salary(e) >= InstructorFixedSalary
    ensures e.Nutritionist? ==> Salary(e) == 800.0 * e.consultationsPerDay as real
  {
  }

  /** Salaries of newly hired staff with default attributes. */
  lemma NewHireSalaries()
    ensures Salary(NewTrainer()) == 0.0
    ensures Salary(GroupInstructor(0)) == InstructorFixedSalary
    ensures Salary(NewNutritionist()) == 6400.0
    ensures Salary(NewAdministrative()) == 1200.0
  {
  }

  /** The base salary every employee is created with; nothing changes it. */
  const BaseSalary: real := 0.0

  /** Commission by performance: a tenth of the base salary once more than
      ten clients are assigned. */
  function Commission(assignedClients: nat, baseSalary: real): (r: real)
    ensures baseSalary >= 0.0 ==> 0.0 <= r <= baseSalary * 0.10
    ensures assignedClients > 10 ==> r == baseSalary * 0.10
  {
    if assignedClients > 10 then baseSalary * 0.10 else 0.0
  }

  /** Only more than ten clients earn a commission, and since the base
      salary is always zero the commission is always zero. */
  lemma CommissionFacts(assignedClients: nat, baseSalary: real)
    ensures assignedClients <= 10 ==> Commission(assignedClients, baseSalary) == 0.0
    ensures Commission(assignedClients, BaseSalary) == 0.0
  {
  }
}
