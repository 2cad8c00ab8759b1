/**
 * The record store (services/DatabaseService.ts): three logical collections kept under four keys
 * of the device's key-value store. A collection's JSON text is modelled by the list itself,
 * taking stringify/parse to round-trip exactly.
 */
module Database {
  import opened Options
  import opened Seqs
  import opened Records

  const EmployeesKey := "employees"
  const RecordsKey := "attendance_records"
  const AuthTokenKey := "authToken"
  const EmployeeIdKey := "currentEmployeeId"

  /** A value under one key of the device store. */
  datatype Stored = EmployeeList(employees: seq<Employee>) | RecordList(records: seq<AttendanceRecord>) | Str(text: string)

  type Storage = map<string, Stored>

  /** What a store operation reports: success, or the storage error it rethrows. */
  datatype Outcome = Done | StorageError

  /** Each of the four keys holds the kind of value its setter writes. */
  ghost predicate WellFormed(m: Storage)
  {
    && (EmployeesKey in m ==> m[EmployeesKey].EmployeeList?)
    && (RecordsKey in m ==> m[RecordsKey].RecordList?)
    && (AuthTokenKey in m ==> m[AuthTokenKey].Str?)
    && (EmployeeIdKey in m ==> m[EmployeeIdKey].Str?)
  }

  /** `getEmployees`: a missing key reads as the empty list. */
  function EmployeesIn(m: Storage): seq<Employee>
  {
    if EmployeesKey in m && m[EmployeesKey].EmployeeList? then m[EmployeesKey].employees else []
  }

  /** `getAttendanceRecords`: a missing key reads as the empty list. */
  function RecordsIn(m: Storage): seq<AttendanceRecord>
  {
    if RecordsKey in m && m[RecordsKey].RecordList? then m[RecordsKey].records else []
  }

  /** `getItem` of a text key: `null` when missing. */
  function TextAt(m: Storage, key: string): Option<string>
  {
    if key in m && m[key].Str? then Some(m[key].text) else None
  }

  /** The list `saveEmployee` writes back: the first entry with the same id replaced, or the employee appended. */
  function Upsert(employees: seq<Employee>, employee: Employee): (r: seq<Employee>)
    ensures |employees| <= |r| <= |employees| + 1
    ensures employee in r
    ensures forall e :: e in r ==> e == employee || e in employees
  {
    match FindIndex(employees, EmployeeWithId(employee.id))
    case Some(i) =>
      var r := employees[i := employee];
      assert r[i] == employee;
      r
    case None => employees + [employee]
  }

  /** Saving an employee whose id is present replaces the first such entry in place and nothing else. */
  lemma UpsertExisting(employees: seq<Employee>, employee: Employee, i: nat)
    requires i < |employees| && employees[i].id == employee.id
    requires forall j :: 0 <= j < i ==> employees[j].id != employee.id
    ensures |Upsert(employees, employee)| == |employees|
    ensures Upsert(employees, employee)[i] == employee
    ensures forall j :: 0 <= j < |employees| && j != i ==> Upsert(employees, employee)[j] == employees[j]
  {
    var k := FindIndex(employees, EmployeeWithId(employee.id));
    assert EmployeeWithId(employee.id)(employees[i]);
    assert k.Some? && k.value == i;
  }

  /** Saving an employee with a new id appends it at the end. */
  lemma UpsertNew(employees: seq<Employee>, employee: Employee)
    requires forall j :: 0 <= j < |employees| ==> employees[j].id != employee.id
    ensures Upsert(employees, employee) == employees + [employee]
  {
    assert forall j :: 0 <= j < |employees| ==> !EmployeeWithId(employee.id)(employees[j]);
  }

  /** After saving, a search by id finds exactly the saved employee. */
  lemma UpsertFindable(employees: seq<Employee>, employee: Employee)
    ensures Find(Upsert(employees, employee), EmployeeWithId(employee.id)) == Some(employee)
  {
    var r := Upsert(employees, employee);
    var p := EmployeeWithId(employee.id);
    match FindIndex(employees, p)
    case Some(i) =>
      assert p(r[i]);
      var k := FindIndex(r, p);
      assert k.Some? && k.value == i;
    case None =>
      assert p(r[|employees|]);
      var k := FindIndex(r, p);
      assert k.Some? && k.value == |employees|;
  }

  /** The list `markRecordAsSynced` writes back: the first record with that id flagged as synced. */
  function MarkSynced(records: seq<AttendanceRecord>, recordId: string): (r: seq<AttendanceRecord>)
    ensures |r| == |records|
    ensures forall i :: 0 <= i < |r| ==> r[i] == records[i] || (records[i].id == recordId && r[i] == records[i].(isSynced := true))
  {
    match FindIndex(records, RecordWithId(recordId))
    case Some(i) => records[i := records[i].(isSynced := true)]
    case None => records
  }

  /** Only the first record with the id changes, and only in its `isSynced` flag. */
  lemma MarkSyncedChangesOneFlag(records: seq<AttendanceRecord>, recordId: string, i: nat)
    requires i < |records| && records[i].id == recordId
    requires forall j :: 0 <= j < i ==> records[j].id != recordId
    ensures |MarkSynced(records, recordId)| == |records|
    ensures MarkSynced(records, recordId)[i] == records[i].(isSynced := true)
    ensures forall j :: 0 <= j < |records| && j != i ==> MarkSynced(records, recordId)[j] == records[j]
  {
    var k := FindIndex(records, RecordWithId(recordId));
    assert RecordWithId(recordId)(records[i]);
    assert k.Some? && k.value == i;
  }

  /** An unknown id leaves the records as they are. */
  lemma MarkSyncedUnknown(records: seq<AttendanceRecord>, recordId: string)
    requires forall j :: 0 <= j < |records| ==> records[j].id != recordId
    ensures MarkSynced(records, recordId) == records
  {
    assert forall j :: 0 <= j < |records| ==> !RecordWithId(recordId)(records[j]);
  }

  /** Marking a record twice is marking it once. */
  lemma MarkSyncedIdempotent(records: seq<AttendanceRecord>, recordId: string)
    ensures MarkSynced(MarkSynced(records, recordId), recordId) == MarkSynced(records, recordId)
  {
    var p := RecordWithId(recordId);
    var once := MarkSynced(records, recordId);
    match FindIndex(records, p)
    case None =>
    case Some(i) =>
      assert forall j :: 0 <= j < |records| ==> once[j].id == records[j].id;
      assert p(once[i]);
      var k := FindIndex(once, p);
      assert k.Some? && k.value == i;
      assert once[i := once[i].(isSynced := true)] == once;
  }

  /**
   * The store object. `items` is the device's key-value store; every mutator takes, for each
   * write it issues, whether the device accepts that write (a refused write raises the storage
   * error the source rethrows, and the writes after it are not attempted).
   */
  class DatabaseService {
    var items: Storage

    ghost predicate Valid()
      reads this
    {
      WellFormed(items)
    }

    constructor (initial: Storage)
      requires WellFormed(initial)
      ensures Valid() && items == initial
    {
      items := initial;
    }

    /** `getEmployees`: a missing key reads as the empty list. */
    function Employees(): (r: seq<Employee>)
      reads this
      ensures EmployeesKey !in items ==> r == []
      ensures Valid() && EmployeesKey in items ==> r == items[EmployeesKey].employees
    {
      EmployeesIn(items)
    }

    /** `getAttendanceRecords`: a missing key reads as the empty list. */
    function AttendanceRecords(): (r: seq<AttendanceRecord>)
      reads this
      ensures RecordsKey !in items ==> r == []
      ensures Valid() && RecordsKey in items ==> r == items[RecordsKey].records
    {
      RecordsIn(items)
    }

    /** `getEmployeeByPhone`: the first employee whose phone number is exactly `phone`. */
    function EmployeeByPhone(phone: string): (r: Option<Employee>)
      reads this
      ensures r.Some? ==> exists i :: 0 <= i < |Employees()| && Employees()[i] == r.value && r.value.phoneNumber == phone
                                      && forall j :: 0 <= j < i ==> Employees()[j].phoneNumber != phone
      ensures r.None? <==> forall e :: e in Employees() ==> e.phoneNumber != phone
    {
      var r := Find(Employees(), EmployeeWithPhone(phone));
      assert r.None? ==> forall e :: e in Employees() ==> !EmployeeWithPhone(phone)(e);
      r
    }

    /** `getAttendanceRecordsByEmployee`. */
    function RecordsByEmployee(employeeId: string): (r: seq<AttendanceRecord>)
      reads this
      ensures IsSubsequence(r, AttendanceRecords())
      ensures forall x :: multiset(r)[x] == if x.employeeId == employeeId then multiset(AttendanceRecords())[x] else 0
    {
      var r := Filter(AttendanceRecords(), RecordOfEmployee(employeeId));
      FilterIsSubsequence(AttendanceRecords(), RecordOfEmployee(employeeId));
      forall x ensures multiset(r)[x] == if x.employeeId == employeeId then multiset(AttendanceRecords())[x] else 0 {
        FilterCount(AttendanceRecords(), RecordOfEmployee(employeeId), x);
      }
      r
    }

    /** `getTodayAttendanceRecords`: `today` and `dateOf` stand for `new Date().toDateString()` and the date of an instant. */
    function TodayRecords(employeeId: string, today: string, dateOf: Timestamp -> string): (r: seq<AttendanceRecord>)
      reads this
      ensures IsSubsequence(r, RecordsByEmployee(employeeId))
      ensures forall x :: x in r ==> x.employeeId == employeeId && dateOf(x.timestamp) == today
      ensures forall x :: multiset(r)[x]
                          == if x.employeeId == employeeId && dateOf(x.timestamp) == today then multiset(AttendanceRecords())[x] else 0
    {
      var r := Filter(RecordsByEmployee(employeeId), RecordOnDay(today, dateOf));
      FilterIsSubsequence(RecordsByEmployee(employeeId), RecordOnDay(today, dateOf));
      forall x ensures multiset(r)[x]
                       == if x.employeeId == employeeId && dateOf(x.timestamp) == today then multiset(AttendanceRecords())[x] else 0 {
        FilterCount(RecordsByEmployee(employeeId), RecordOnDay(today, dateOf), x);
      }
      assert forall x :: x in r ==> RecordOfEmployee(employeeId)(x) by {
        forall x | x in r ensures RecordOfEmployee(employeeId)(x) {
          assert x in RecordsByEmployee(employeeId);
        }
      }
      r
    }

    /** `getUnsyncedRecords`. */
    function UnsyncedRecords(): (r: seq<AttendanceRecord>)
      reads this
      ensures IsSubsequence(r, AttendanceRecords())
      ensures forall x :: multiset(r)[x] == if x.isSynced then 0 else multiset(AttendanceRecords())[x]
    {
      var r := Filter(AttendanceRecords(), IsUnsynced);
      FilterIsSubsequence(AttendanceRecords(), IsUnsynced);
      forall x ensures multiset(r)[x] == if x.isSynced then 0 else multiset(AttendanceRecords())[x] {
        FilterCount(AttendanceRecords(), IsUnsynced, x);
      }
      r
    }

    /** `getAuthToken`: `null` when no token is stored. */
    function AuthToken(): (r: Option<string>)
      reads this
      ensures AuthTokenKey !in items ==> r == None
      ensures Valid() && AuthTokenKey in items ==> r == Some(items[AuthTokenKey].text)
    {
      TextAt(items, AuthTokenKey)
    }

    /** `getCurrentEmployeeId`: `null` when no id is stored. */
    function CurrentEmployeeId(): (r: Option<string>)
      reads this
      ensures EmployeeIdKey !in items ==> r == None
      ensures Valid() && EmployeeIdKey in items ==> r == Some(items[EmployeeIdKey].text)
    {
      TextAt(items, EmployeeIdKey)
    }

    /** `saveEmployee`: read the list, replace by id or append, write it back. */
    method SaveEmployee(employee: Employee, writeOk: bool) returns (r: Outcome)
      requires Valid()
      modifies this
      ensures Valid()
      ensures r == if writeOk then Done else StorageError
      ensures items == if writeOk then old(items)[EmployeesKey := EmployeeList(Upsert(old(Employees()), employee))] else old(items)
      ensures writeOk ==> Employees() == Upsert(old(Employees()), employee) && AttendanceRecords() == old(AttendanceRecords())
    {
      var employees := Employees();
      var existingIndex := FindIndex(employees, EmployeeWithId(employee.id));
      if existingIndex.Some? {
        employees := employees[existingIndex.value := employee];
      } else {
        employees := employees + [employee];
      }
      if writeOk {
        items := items[EmployeesKey := EmployeeList(employees)];
        r := Done;
      } else {
        r := StorageError;
      }
    }

    /** `saveAttendanceRecord`: read the list, push the record, write it back. */
    method SaveAttendanceRecord(record: AttendanceRecord, writeOk: bool) returns (r: Outcome)
      requires Valid()
      modifies this
      ensures Valid()
      ensures r == if writeOk then Done else StorageError
      ensures items == if writeOk then old(items)[RecordsKey := RecordList(old(AttendanceRecords()) + [record])] else old(items)
      ensures writeOk ==> AttendanceRecords() == old(AttendanceRecords()) + [record] && Employees() == old(Employees())
    {
      var records := AttendanceRecords();
      records := records + [record];
      if writeOk {
        items := items[RecordsKey := RecordList(records)];
        r := Done;
      } else {
        r := StorageError;
      }
    }

    /** `markRecordAsSynced`: an unknown id performs no write at all, so it cannot fail. */
    method MarkRecordAsSynced(recordId: string, writeOk: bool) returns (r: Outcome)
      requires Valid()
      modifies this
      ensures Valid()
      ensures var known := exists j :: 0 <= j < |old(AttendanceRecords())| && old(AttendanceRecords())[j].id == recordId;
              && r == (if known && !writeOk then StorageError else Done)
              && items == if known && writeOk then old(items)[RecordsKey := RecordList(MarkSynced(old(AttendanceRecords()), recordId))] else old(items)
    {
      var records := AttendanceRecords();
      var recordIndex := FindIndex(records, RecordWithId(recordId));
      if recordIndex.Some? {
        assert records[recordIndex.value].id == recordId;
        records := records[recordIndex.value := records[recordIndex.value].(isSynced := true)];
        if writeOk {
          items := items[RecordsKey := RecordList(records)];
          r := Done;
        } else {
          r := StorageError;
        }
      } else {
        assert forall j :: 0 <= j < |records| ==> !RecordWithId(recordId)(records[j]);
        r := Done;
      }
    }

    /** `saveAuthToken`: two writes, the token first. */
    method SaveAuthToken(token: string, employeeId: string, tokenWriteOk: bool, idWriteOk: bool) returns (r: Outcome)
      requires Valid()
      modifies this
      ensures Valid()
      ensures r == if tokenWriteOk && idWriteOk then Done else StorageError
      ensures items == if !tokenWriteOk then old(items)
                       else if !idWriteOk then old(items)[AuthTokenKey := Str(token)]
                       else old(items)[AuthTokenKey := Str(token)][EmployeeIdKey := Str(employeeId)]
      ensures r == Done ==> AuthToken() == Some(token) && CurrentEmployeeId() == Some(employeeId)
    {
      if !tokenWriteOk {
        return StorageError;
      }
      items := items[AuthTokenKey := Str(token)];
      if !idWriteOk {
        return StorageError;
      }
      items := items[EmployeeIdKey := Str(employeeId)];
      r := Done;
    }

    /** `clearAuth`: two removals, the token first. */
    method ClearAuth(tokenRemoveOk: bool, idRemoveOk: bool) returns (r: Outcome)
      requires Valid()
      modifies this
      ensures Valid()
      ensures r == if tokenRemoveOk && idRemoveOk then Done else StorageError
      ensures items == if !tokenRemoveOk then old(items)
                       else if !idRemoveOk then old(items) - {AuthTokenKey}
                       else old(items) - {AuthTokenKey, EmployeeIdKey}
      ensures r == Done ==> AuthToken() == None && CurrentEmployeeId() == None
      ensures Employees() == old(Employees()) && AttendanceRecords() == old(AttendanceRecords())
    {
      if !tokenRemoveOk {
        return StorageError;
      }
      items := items - {AuthTokenKey};
      if !idRemoveOk {
        return StorageError;
      }
      items := items - {EmployeeIdKey};
      r := Done;
    }

    /** `clearAllData`: empties the whole device store. */
    method ClearAllData(clearOk: bool) returns (r: Outcome)
      requires Valid()
      modifies this
      ensures Valid()
      ensures r == if clearOk then Done else StorageError
      ensures items == if clearOk then map[] else old(items)
      ensures clearOk ==> Employees() == [] && AttendanceRecords() == [] && AuthToken() == None && CurrentEmployeeId() == None
    {
      if clearOk {
        items := map[];
        r := Done;
      } else {
        r := StorageError;
      }
    }
  }

  /** After a record is saved, today's list for its employee, on its own date, gains exactly that record at the end. */
  lemma TodayRecordsAfterSave(records: seq<AttendanceRecord>, record: AttendanceRecord, employeeId: string,
                              today: string, dateOf: Timestamp -> string)
    ensures var before := Filter(Filter(records, RecordOfEmployee(employeeId)), RecordOnDay(today, dateOf));
            var after := Filter(Filter(records + [record], RecordOfEmployee(employeeId)), RecordOnDay(today, dateOf));
            after == before + (if record.employeeId == employeeId && dateOf(record.timestamp) == today then [record] else [])
  {
    FilterAppend(records, record, RecordOfEmployee(employeeId));
    var mine := Filter(records, RecordOfEmployee(employeeId));
    if record.employeeId == employeeId {
      FilterAppend(mine, record, RecordOnDay(today, dateOf));
    } else {
      assert mine + [] == mine;
    }
  }
}
