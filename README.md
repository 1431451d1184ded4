# Gym domain model

A Dafny model of the domain layer of a gym management exercise
(`gym_system.py`): four families of business entities, each an abstract
base with four variants.

- **Memberships** (`Membresia`: basic, premium, family, corporate): a plan
  price per variant, a status that may only take one of three values, and a
  renewal that applies a tiered prepayment discount and appends a payment
  record.
- **Group classes** (`ClaseGrupal`: yoga, spinning, functional, aerobics): a
  capacity and a calorie table per variant, a level check, and an
  enrolment that rejects a full class or a duplicate participant and
  otherwise appends the client, so the participant list always stays within
  capacity and free of duplicates.
- **Staff** (`EmpleadoGimnasio`: personal trainer, group instructor,
  nutritionist, administrative): a salary formula per role and the unused
  performance commission.
- **Equipment** (`Equipo`: cardio machine, weight, functional gear,
  accessory): a depreciation rate and maintenance interval per variant, a
  maintenance log, and straight-line revaluation clamped at zero.

Each family's variants are a closed datatype with exhaustive `match`.
Entities whose fields change in place (membership, group class, equipment)
are classes: their methods state the whole new state in terms of the old
one, and pure specification functions with lemmas state what the source
promises. Money and rates are `real`. The current time is a parameter: the
renewal takes the timestamp it records, and revaluation takes the whole
number of days since acquisition, divided by 365 as the source does.

Files: `common.dfy` (Option, Outcome), `memberships.dfy`,
`group_classes.dfy`, `employees.dfy`, `equipment.dfy`.

## Model

| member | source | states |
|---|---|---|
| Memberships.StatusName | gym_system.py:73-78 | every status is named by one of the three legal names |
| Memberships.ParseStatus | gym_system.py:73-78 | a status name is accepted iff it is one of "activa", "suspendida", "cancelada", and is read as the status carrying that name |
| Memberships.StatusNameRoundTrip | gym_system.py:73-78 | every status's name is accepted and reads back as that status |
| Memberships.Membership.SetStatus | gym_system.py:73-78 | succeeds iff the name is one of the three legal ones and then sets that status; otherwise fails with "Estado inválido" and leaves the status unchanged |
| Memberships.Membership.constructor | gym_system.py:49-58 | a new membership is "activa", has an empty payment history and its plan's services |
| Memberships.MonthlyCost | gym_system.py:145-215 | the monthly price of a plan is never negative for non-negative head counts |
| Memberships.MonthlyCostFacts | gym_system.py:145-215 | monthly prices: basic 30, premium 60, family 40 × members × 0.85 = 34 per member, corporate 25 per employee; never negative for non-negative counts |
| Memberships.AllowedHours | gym_system.py:148-218 | each plan's opening hours (basic 6 AM–2 PM, premium 5 AM–11 PM, family and corporate 6 AM–10 PM); their relations are stated by AllowedHoursByPlan |
| Memberships.IncludedServices | gym_system.py:140-209 | every plan's service list has at least two entries and starts with machine access |
| Memberships.AllowedHoursByPlan | gym_system.py:148-218 | family and corporate plans share one schedule regardless of head count; basic differs from every other plan |
| Memberships.IncludedServicesByPlan | gym_system.py:140-209 | every plan includes machine access; only premium includes the spa; every plan but basic includes group classes |
| Memberships.Discount | gym_system.py:92-98 | the prepayment discount is between 0 and 0.20 |
| Memberships.DiscountTiers | gym_system.py:92-98 | discount is 0.20 iff months ≥ 12, 0.10 iff 6 ≤ months < 12, 0 iff months < 6 |
| Memberships.DiscountMonotone | gym_system.py:92-98 | more months never lower the discount |
| Memberships.BaseCost | gym_system.py:103 | the undiscounted price of a renewal is never negative for non-negative months and head counts |
| Memberships.RenewalCost | gym_system.py:101-105 | the discounted renewal price; its bounds are stated by RenewalCostBounds and its value by Renew |
| Memberships.RenewalCostBounds | gym_system.py:101-105 | a renewal charges between 80% and 100% of monthly cost × months, and exactly that for fewer than 6 months |
| Memberships.BasicAnnualRenewal | gym_system.py:101-146 | renewing a basic plan for 12 months charges 288 |
| Memberships.AnnualUndercutsElevenMonths | gym_system.py:92-105 | for any plan with a positive price, a 12-month renewal costs less than an 11-month one |
| Memberships.RenewalPayment | gym_system.py:103-114 | the recorded payment holds the date, the months, a base cost of monthly cost × months, the tier discount, and a final cost equal to base cost × (1 − discount) and to the renewal cost |
| Memberships.Membership.Renew | gym_system.py:101-115 | returns monthly cost × months × (1 − discount); appends exactly one payment record and leaves the earlier records unchanged |
| GroupClasses.Capacity | gym_system.py:322-384 | capacities are 20, 15 (the bicycles), 25 and 30, all between 15 and 30 |
| GroupClasses.CalorieRate | gym_system.py:325-388 | every per-minute rate, with its fallback for unknown keys, lies between 3 and 12 |
| GroupClasses.CaloriesBurned | gym_system.py:325-388 | calories for a non-negative duration are never negative |
| GroupClasses.CalorieRateTable | gym_system.py:325-388 | an unknown table key gets the rate of the variant's default key (principiante, media, intermedio, medio); rates rise strictly along each table's three keys |
| GroupClasses.CaloriesMonotone | gym_system.py:325-388 | calories = rate × duration are never negative and grow with duration |
| GroupClasses.LevelRank | gym_system.py:270-274 | level ranks lie between 1 and 3 |
| GroupClasses.MeetsLevel | gym_system.py:270-274 | the level check (client rank ≥ required rank, a missing level read as principiante); its properties are stated by MeetsLevelFacts |
| GroupClasses.MeetsLevelFacts | gym_system.py:270-274 | a client without a level counts as principiante; everyone meets principiante, avanzado meets everything; principiante < intermedio < avanzado strictly (principiante fails intermedio and avanzado, intermedio fails avanzado, intermedio meets intermedio); unknown required levels are met by all |
| GroupClasses.EnrolStep | gym_system.py:277-286 | a successful attempt extends the list by exactly one entry at the end; a failed one leaves it unchanged |
| GroupClasses.EnrolAll | gym_system.py:277-286 | a run of enrolment attempts grows the list by at most one entry per client tried |
| GroupClasses.EnrolRejections | gym_system.py:277-283 | a full class answers "Clase llena" (checked first, even for an enrolled client); otherwise an enrolled client gets "Ya está inscrito"; the list is unchanged on either failure |
| GroupClasses.EnrolSuccess | gym_system.py:277-286 | enrolment succeeds iff there is room and the client is new, and then appends the client at the end with "Inscripción exitosa" |
| GroupClasses.EnrolPreservesRoster | gym_system.py:277-286 | one enrolment keeps the list within capacity and free of duplicates |
| GroupClasses.EnrolAllPreservesRoster | gym_system.py:277-286 | any sequence of enrolments keeps the list within capacity and free of duplicates |
| GroupClasses.EnrolAllFromEmpty | gym_system.py:254-286 | from an empty class, any sequence of enrolments leaves at most capacity distinct participants, so the open spots are never negative |
| GroupClasses.EnrolAllAppendsOnly | gym_system.py:277-286 | enrolments only append (the earlier list is a prefix), and every client tried is enrolled unless the class filled up |
| GroupClasses.SpinningRejectsSixteenth | gym_system.py:339-344 | a spinning class holding 15 participants turns away any further client as full |
| GroupClasses.GroupClass.constructor | gym_system.py:235-244 | a new class has no participants and no attendance and satisfies the roster invariant |
| GroupClasses.GroupClass.SpotsAvailable | gym_system.py:254-256 | open spots are capacity − enrolled, between 0 and capacity, zero exactly when full |
| GroupClasses.GroupClass.Enrol | gym_system.py:277-286 | answers as the enrolment rules say, updates the list accordingly and keeps the roster invariant |
| GroupClasses.GroupClass.RecordAttendance | gym_system.py:288-293 | appends one snapshot holding the date and the current enrolment count |
| Employees.Salary | gym_system.py:480-558 | the salary formula of each role; an instructor never earns below the fixed 800 |
| Employees.SalaryNonNegative | gym_system.py:480-558 | no role with non-negative attributes earns a negative salary |
| Employees.SalaryIncrements | gym_system.py:480-534 | each trainer client adds 50; an instructor earns 800 + 60 per weekly class; a nutritionist earns 800 per daily consultation |
| Employees.NewHireSalaries | gym_system.py:472-558 | with default attributes: a new trainer earns 0, an instructor without classes 800, a nutritionist 6400, an administrative employee 1200 |
| Employees.Commission | gym_system.py:437-441 | more than ten clients earn exactly a tenth of the base salary; the commission lies between 0 and 10% of a non-negative base salary |
| Employees.CommissionFacts | gym_system.py:411-441 | ten or fewer clients earn no commission, and since the base salary is always 0.0 the commission is always 0 |
| Equipment.AnnualDepreciation | gym_system.py:670-728 | every annual rate lies between 0.05 and 0.25 |
| Equipment.MaintenanceIntervalDays | gym_system.py:673-731 | every maintenance interval lies between 15 and 180 days |
| Equipment.ElapsedYears | gym_system.py:639 | elapsed years are the whole elapsed days divided by 365, never negative for non-negative days |
| Equipment.RatesAndIntervals | gym_system.py:670-731 | rates (0.15, 0.05, 0.10, 0.25) are proper fractions; a variant depreciates faster iff its maintenance interval (30, 180, 60, 15 days) is shorter |
| Equipment.DepreciatedValue | gym_system.py:636-641 | the revalued amount is exactly max(0, value × (1 − rate × years)): never negative, at least the raw amount, and either zero or the raw amount |
| Equipment.NoElapsedTimeKeepsValue | gym_system.py:636-641 | after zero days a non-negative value is unchanged |
| Equipment.DepreciationMonotone | gym_system.py:636-641 | value never rises as time passes |
| Equipment.WrittenOff | gym_system.py:636-641 | once rate × years reaches 1 the value is clamped to 0 |
| Equipment.WrittenOffAfterPeriod | gym_system.py:636-731 | each variant is worth 0 after 2434, 7300, 3650 or 1460 days respectively |
| Equipment.WeightAfterTenYears | gym_system.py:636-690 | a weight bought for 800 is worth 400 after 3650 days |
| Equipment.RemainingUsefulLife | gym_system.py:618-622 | remaining life is max(0, 10 − years): never negative, at most 10, zero exactly from 3650 days on, and otherwise 10 − days/365 |
| Equipment.Equipment.constructor | gym_system.py:583-592 | new equipment is worth its purchase value and has an empty maintenance log |
| Equipment.Equipment.RegisterMaintenance | gym_system.py:625-634 | returns the entry (date, type, cost, "Técnico") and appends it to the log |
| Equipment.Equipment.UpdateValue | gym_system.py:636-641 | sets and returns the depreciated value for the elapsed days, never negative |

## Left out

- Floating point: money and rates are exact reals, so results differ from the source's float arithmetic by rounding.
- The clock: `datetime.now()` and ISO date parsing are replaced by a timestamp parameter (renewal) and a whole-days-elapsed parameter (revaluation, remaining life).
- Memberships.Membership.Renew: the source's default of one month is not modelled; the caller always passes the months.
- Memberships.Membership.constructor: the base class accepts any initial status without validation, but no variant passes one, so the model always starts at "activa".
- GroupClasses.Capacity: the spinning capacity is the public attribute `bicicletas_disponibles`, set to 15; reassigning it from outside the class is not modelled (it could break the roster invariant in the source).
- Clients are modelled as strings compared by value, as the source's demo uses them; a client's optional `nivel` attribute is an `Option<string>`.
- Default arguments are not modelled; callers always pass them: `registrar_mantenimiento`'s type "preventivo" and cost 0.0, the family plan's 2 members and the corporate plan's 1 employee.
- Employees.Salary: the instructor's fixed salary 800 and the nutritionist's fee 40 per consultation are public attributes in the source; the model treats them as constants, so reassigning them is not modelled.
- Memberships.Membership.Renew: the plan, with its member count, group discount 0.15 and employee count, is fixed when the membership is created; the source could reassign those attributes between renewals.
- Renewal months and class durations are integers; the source would also accept fractional values.
- Employee attributes that the source keeps in public lists (`clientes_activos`, `horario_clases`) are modelled by their lengths, which is all the salary formulas read.
- `generar_plan_trabajo`, the employee `registrar_asistencia`, `to_dict` and `__str__`: descriptive records and formatting with no stored effect.
- The demo driver `test_sistema_completo`, `main.py` and the second employee hierarchy under `src/`: console drivers and a divergent duplicate of the staff family.
