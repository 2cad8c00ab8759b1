/** The entities the record store keeps: employees and attendance records. */
module Records {
  import opened Options

  /** An instant in milliseconds since the epoch; the source stores it as its ISO-8601 text. */
  type Timestamp = int

  datatype PunchType = IN | OUT

  /** Where a punch happened; coordinates are the source's floating-point numbers, kept abstract here. */
  datatype Location = Location(latitude: real, longitude: real, address: Option<string>)

  datatype AttendanceRecord = AttendanceRecord(
    id: string,
    employeeId: string,
    employeeName: string,
    punchType: PunchType,
    timestamp: Timestamp,
    location: Location,
    photoUri: Option<string>,
    isSynced: bool)

  datatype Employee = Employee(id: string, phoneNumber: string, name: string, pin: string)

  /** The text a punch type is stored and shown as. */
  function PunchTypeName(t: PunchType): string
  {
    match t
    case IN => "IN"
    case OUT => "OUT"
  }

  /** The element tests the store and the admin panel filter and search with. */
  function EmployeeWithId(id: string): Employee -> bool
  {
    (e: Employee) => e.id == id
  }

  function EmployeeWithPhone(phone: string): Employee -> bool
  {
    (e: Employee) => e.phoneNumber == phone
  }

  function RecordWithId(id: string): AttendanceRecord -> bool
  {
    (r: AttendanceRecord) => r.id == id
  }

  function RecordOfEmployee(employeeId: string): AttendanceRecord -> bool
  {
    (r: AttendanceRecord) => r.employeeId == employeeId
  }

  /** The record's calendar date, as `dateOf` renders an instant, equals `day`. */
  function RecordOnDay(day: string, dateOf: Timestamp -> string): AttendanceRecord -> bool
  {
    (r: AttendanceRecord) => dateOf(r.timestamp) == day
  }

  predicate IsUnsynced(r: AttendanceRecord)
  {
    !r.isSynced
  }

  predicate IsPunchIn(r: AttendanceRecord)
  {
    r.punchType == IN
  }
}
