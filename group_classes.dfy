/**
 * Group classes: the abstract `ClaseGrupal` with its four variants (yoga,
 * spinning, functional training, aerobics).  The variant is a closed
 * datatype; a class is an object whose participant list and attendance log
 * grow in place.
 */
module GroupClasses {
  import opened Common

  // ---------------------------------------------------------------------------
  // Variants, capacities and calorie tables
  // ---------------------------------------------------------------------------

  /** The four class variants with the attribute each calorie table is keyed by. */
  datatype ClassKind =
    | Yoga(level: string, style: string)
    | Spinning(intensity: string)
    | Functional(difficulty: string)
    | Aerobics(impact: string)

  /** Bicycles in a spinning room, which bound its enrolment. */
  const SpinningBikes: nat := 15

  /** Maximum enrolment of each variant. */
  function Capacity(k: ClassKind): (c: nat)
    ensures SpinningBikes <= c <= 30
  {
    match k
    case Yoga(_, _) => 20
    case Spinning(_) => SpinningBikes
    case Functional(_) => 25
    case Aerobics(_) => 30
  }

  /** Calories burned per minute, looked up in the variant's table; a key the
      table does not know falls back to the table's default. */
  function CalorieRate(k: ClassKind): (r: nat)
    ensures 3 <= r <= 12
  {
    match k
    case Yoga(level, _) =>
      if level == "principiante" then 3
      else if level == "intermedio" then 4
      else if level == "avanzado" then 5
      else 3
    case Spinning(intensity) =>
      if intensity == "baja" then 8
      else if intensity == "media" then 10
      else if intensity == "alta" then 12
      else 10
    case Functional(difficulty) =>
      if difficulty == "principiante" then 7
      else if difficulty == "intermedio" then 9
      else if difficulty == "avanzado" then 11
      else 9
    case Aerobics(impact) =>
      if impact == "bajo" then 5
      else if impact == "medio" then 7
      else if impact == "alto" then 9
      else 7
  }

  /** The key each variant is created with when none is given. */
  function DefaultKey(k: ClassKind): string {
    match k
    case Yoga(_, _) => "principiante"
    case Spinning(_) => "media"
    case Functional(_) => "intermedio"
    case Aerobics(_) => "medio"
  }

  /** The variant's key, whatever it is called in that variant. */
  function Key(k: ClassKind): string {
    match k
    case Yoga(level, _) => level
    case Spinning(intensity) => intensity
    case Functional(difficulty) => difficulty
    case Aerobics(impact) => impact
  }

  /** The same variant with its key replaced. */
  function WithKey(k: ClassKind, key: string): (r: ClassKind)
    ensures Key(r) == key && DefaultKey(r) == DefaultKey(k)
  {
    match k
    case Yoga(_, style) => Yoga(key, style)
    case Spinning(_) => Spinning(key)
    case Functional(_) => Functional(key)
    case Aerobics(_) => Aerobics(key)
  }

  /** The table's three keys for each variant. */
  function TableKeys(k: ClassKind): seq<string> {
    match k
    case Yoga(_, _) => ["principiante", "intermedio", "avanzado"]
    case Spinning(_) => ["baja", "media", "alta"]
    case Functional(_) => ["principiante", "intermedio", "avanzado"]
    case Aerobics(_) => ["bajo", "medio", "alto"]
  }

  /** An unknown key is charged the rate of the variant's default key, and
      the rates grow strictly along the table's three keys. */
  lemma CalorieRateTable(k: ClassKind)
    ensures Key(k) !in TableKeys(k) ==> CalorieRate(k) == CalorieRate(WithKey(k, DefaultKey(k)))
    ensures DefaultKey(k) in TableKeys(k)
    ensures CalorieRate(WithKey(k, TableKeys(k)[0])) < CalorieRate(WithKey(k, TableKeys(k)[1]))
                                                   < CalorieRate(WithKey(k, TableKeys(k)[2]))
  {
  }

  /** Calories a session of `durationMin` minutes burns. */
  function CaloriesBurned(k: ClassKind, durationMin: int): (r: int)
    ensures durationMin >= 0 ==> r >= 0
  {
    CalorieRate(k) * durationMin
  }

  /** Calories are never negative and a longer session burns at least as much. */
  lemma CaloriesMonotone(k: ClassKind, d1: int, d2: int)
    requires 0 <= d1 <= d2
    ensures 0 <= CaloriesBurned(k, d1) <= CaloriesBurned(k, d2)
  {

  }

  // ---------------------------------------------------------------------------
  // Level check
  // ---------------------------------------------------------------------------

  /** Rank of a level name; an unknown name ranks as a beginner. */
  function LevelRank(level: string): (r: int)
    ensures 1 <= r <= 3
  {
    if level == "principiante" then 1
    else if level == "intermedio" then 2
    else if level == "avanzado" then 3
    else 1
  }

  /** Does a client whose `nivel` attribute is `clientLevel` (None when the
      client has no such attribute) meet the required level? */
  predicate MeetsLevel(clientLevel: Option<string>, required: string) {
    LevelRank(clientLevel.GetOr("principiante")) >= LevelRank(required)
  }

  /** A client without a level is treated as a beginner; everyone meets the
      beginner level, an advanced client meets every level, and the three
      levels are strictly ordered principiante < intermedio < avanzado. */
  lemma MeetsLevelFacts(clientLevel: Option<string>, required: string)
    ensures MeetsLevel(None, required) <==> MeetsLevel(Some("principiante"), required)
    ensures MeetsLevel(clientLevel, "principiante")
    ensures MeetsLevel(Some("avanzado"), required)
    ensures !MeetsLevel(Some("principiante"), "avanzado")
    ensures !MeetsLevel(Some("principiante"), "intermedio") && !MeetsLevel(Some("intermedio"), "avanzado")
    ensures MeetsLevel(Some("intermedio"), "intermedio")
    ensures required !in ["intermedio", "avanzado"] ==> MeetsLevel(clientLevel, required)
  {
  }

  // ---------------------------------------------------------------------------
  // Enrolment
  // ---------------------------------------------------------------------------

  const ClassFullMessage: string := "Clase llena"
  const AlreadyEnrolledMessage: string := "Ya está inscrito"
  const EnrolledMessage: string := "Inscripción exitosa"

  /** What one enrolment attempt answers and the participant list it leaves. */
  datatype EnrolResult = EnrolResult(ok: bool, message: string, participants: seq<string>)

  /** One enrolment attempt on a list `ps` with room for `cap`. */
  function EnrolStep(ps: seq<string>, cap: int, client: string): (r: EnrolResult)
    ensures r.ok ==> |r.participants| == |ps| + 1 && r.participants[..|ps|] == ps
    ensures !r.ok ==> r.participants == ps
  {
    if |ps| >= cap then EnrolResult(false, ClassFullMessage, ps)
    else if client in ps then EnrolResult(false, AlreadyEnrolledMessage, ps)
    else EnrolResult(true, EnrolledMessage, ps + [client])
  }

  /** No participant appears twice. */
  predicate NoDuplicates(ps: seq<string>) {
    forall i, j :: 0 <= i < j < |ps| ==> ps[i] != ps[j]
  }

  /** The invariant of a participant list: within capacity, no duplicates. */
  predicate RosterOk(ps: seq<string>, cap: int) {
    |ps| <= cap && NoDuplicates(ps)
  }

  /** The two rejections: a full class is reported first, even for a client
      already on the list; a duplicate is reported otherwise. Either way the
      list is unchanged. */
  lemma EnrolRejections(ps: seq<string>, cap: int, client: string)
    ensures |ps| >= cap ==> EnrolStep(ps, cap, client) == EnrolResult(false, ClassFullMessage, ps)
    ensures |ps| < cap && client in ps ==> EnrolStep(ps, cap, client) == EnrolResult(false, AlreadyEnrolledMessage, ps)
    ensures !EnrolStep(ps, cap, client).ok ==> EnrolStep(ps, cap, client).participants == ps
  {
  }

  /** An enrolment succeeds exactly when there is room and the client is
      new, and then the client is appended at the end. */
  lemma EnrolSuccess(ps: seq<string>, cap: int, client: string)
    ensures EnrolStep(ps, cap, client).ok <==> |ps| < cap && client !in ps
    ensures EnrolStep(ps, cap, client).ok ==>
              EnrolStep(ps, cap, client) == EnrolResult(true, EnrolledMessage, ps + [client])
  {
  }

  /** One enrolment attempt keeps the list within capacity and duplicate-free. */
  lemma EnrolPreservesRoster(ps: seq<string>, cap: int, client: string)
    requires RosterOk(ps, cap)
    ensures RosterOk(EnrolStep(ps, cap, client).participants, cap)
  {

  }

  /** Enrols `clients` one after the other, ignoring the answers. */
  function EnrolAll(ps: seq<string>, cap: int, clients: seq<string>): (r: seq<string>)
    ensures |ps| <= |r| <= |ps| + |clients|
    decreases |clients|
  {
    if clients == [] then ps
    else EnrolAll(EnrolStep(ps, cap, clients[0]).participants, cap, clients[1..])
  }

  /** Any run of enrolments keeps the list within capacity and duplicate-free. */
  lemma {:induction false} EnrolAllPreservesRoster(ps: seq<string>, cap: int, clients: seq<string>)
    requires RosterOk(ps, cap)
    ensures RosterOk(EnrolAll(ps, cap, clients), cap)
    decreases |clients|
  {
    if clients != [] {
      EnrolPreservesRoster(ps, cap, clients[0]);
      EnrolAllPreservesRoster(EnrolStep(ps, cap, clients[0]).participants, cap, clients[1..]);
    }
  }

  /** Starting from an empty class, any run of enrolments leaves at most
      `cap` distinct participants, so the spots left are never negative. */
  lemma EnrolAllFromEmpty(cap: nat, clients: seq<string>)
    ensures RosterOk(EnrolAll([], cap, clients), cap)
    ensures cap - |EnrolAll([], cap, clients)| >= 0
  {
    EnrolAllPreservesRoster([], cap, clients);
  }

  /** Enrolment only ever appends: the earlier list is a prefix of the later
      one; and every client of the run is enrolled unless the class filled up. */
  lemma {:induction false} EnrolAllAppendsOnly(ps: seq<string>, cap: int, clients: seq<string>)
    ensures |ps| <= |EnrolAll(ps, cap, clients)|
    ensures EnrolAll(ps, cap, clients)[..|ps|] == ps
    ensures forall c :: c in clients ==> c in EnrolAll(ps, cap, clients) || |EnrolAll(ps, cap, clients)| >= cap
    decreases |clients|
  {
    if clients != [] {
      var next := EnrolStep(ps, cap, clients[0]).participants;
      EnrolAllAppendsOnly(next, cap, clients[1..]);
      var r := EnrolAll(ps, cap, clients);
      assert r == EnrolAll(next, cap, clients[1..]);
      assert next[..|ps|] == ps;
      assert r[..|ps|] == r[..|next|][..|ps|];
      forall c | c in clients ensures c in r || |r| >= cap {
        if c == clients[0] {
          if |ps| < cap && c !in ps {
            assert next[|ps|] == c;
            assert r[|ps|] == next[|ps|];
          } else if |ps| < cap {
            var i :| 0 <= i < |ps| && ps[i] == c;
            assert r[i] == ps[i];
          } else {
            assert |r| >= |ps|;
          }
        } else {
          assert c in clients[1..];
        }
      }
    }
  }

  /** A spinning class holding 15 participants turns away a 16th client. */
  lemma SpinningRejectsSixteenth(ps: seq<string>, intensity: string, client: string)
    requires |ps| == 15
    ensures EnrolStep(ps, Capacity(Spinning(intensity)), client) == EnrolResult(false, ClassFullMessage, ps)
  {
  }

  // ---------------------------------------------------------------------------
  // The class object
  // ---------------------------------------------------------------------------

  /** One attendance snapshot: the date and how many were enrolled. */
  datatype Attendance = Attendance(date: string, attendees: nat)

  class GroupClass {
    const name: string
    const instructor: string
    const schedule: string
    const durationMin: int
    const kind: ClassKind
    var participants: seq<string>
    var attendance: seq<Attendance>

    /** The class invariant: within capacity, no duplicate participant. */
    ghost predicate Valid()
      reads this
    {
      RosterOk(participants, Capacity(kind))
    }

    /** A new class has no participants and no attendance. */
    constructor (name: string, instructor: string, schedule: string, durationMin: int, kind: ClassKind)
      ensures Valid()
      ensures this.name == name && this.instructor == instructor && this.schedule == schedule
      ensures this.durationMin == durationMin && this.kind == kind
      ensures participants == [] && attendance == []
    {
      this.name := name;
      this.instructor := instructor;
      this.schedule := schedule;
      this.durationMin := durationMin;
      this.kind := kind;
      participants := [];
      attendance := [];
    }

    /** Spots still open: never negative, never above capacity, and zero
        exactly when the class is full. */
    function SpotsAvailable(): (r: int)
      reads this
      requires Valid()
      ensures 0 <= r <= Capacity(kind)
      ensures r == 0 <==> |participants| == Capacity(kind)
      ensures r + |participants| == Capacity(kind)
    {
      Capacity(kind) - |participants|
    }

    /** Enrols `client`, answering as EnrolStep does and keeping the invariant. */
    method Enrol(client: string) returns (ok: bool, message: string)
      requires Valid()
      modifies this`participants
      ensures Valid()
      ensures EnrolResult(ok, message, participants) == EnrolStep(old(participants), Capacity(kind), client)
    {
      EnrolPreservesRoster(participants, Capacity(kind), client);
      if |participants| >= Capacity(kind) {
        return false, ClassFullMessage;
      }
      if client in participants {
        return false, AlreadyEnrolledMessage;
      }
      participants := participants + [client];
      return true, EnrolledMessage;
    }

    /** Records attendance at `date`: appends a snapshot of the enrolment count. */
    method RecordAttendance(date: string)
      modifies this`attendance
      ensures attendance == old(attendance) + [Attendance(date, |participants|)]
    {
      attendance := attendance + [Attendance(date, |participants|)];
    }
  }
}
