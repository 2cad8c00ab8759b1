/**
 * The punch clock (components/PunchScreen.tsx): the status derived from today's records, the
 * choice of the next punch type, and the punch procedure that saves a record and flips the status.
 */
module Punch {
  import opened Options
  import opened Records
  import opened Database
  import opened Camera

  /** `PunchStatus`; `lastPunchTime` keeps the instant that the screen formats for display. */
  datatype PunchStatus = PunchStatus(
    isPunchedIn: bool,
    lastPunchTime: Option<Timestamp>,
    lastPunchType: Option<PunchType>,
    todayRecords: seq<AttendanceRecord>)

  /** The status the screen starts with: not punched in, no records. */
  const InitialStatus := PunchStatus(false, None, None, [])

  /** The status `loadTodayAttendance` derives from today's records: everything comes from the last one. */
  function StatusFromRecords(todayRecords: seq<AttendanceRecord>): (s: PunchStatus)
    ensures s.todayRecords == todayRecords
    ensures s.lastPunchType.Some? <==> |todayRecords| > 0
    ensures s.lastPunchTime.Some? <==> s.lastPunchType.Some?
    ensures s.isPunchedIn <==> s.lastPunchType == Some(IN)
  {
    if |todayRecords| == 0 then PunchStatus(false, None, None, todayRecords)
    else
      var last := todayRecords[|todayRecords| - 1];
      PunchStatus(last.punchType == IN, Some(last.timestamp), Some(last.punchType), todayRecords)
  }

  /** The punch offered next: the opposite of the current state. */
  function NextPunchType(status: PunchStatus): (t: PunchType)
    ensures t == OUT <==> status.isPunchedIn
    ensures Consistent(status) && status.lastPunchType.Some? ==> Some(t) != status.lastPunchType
  {
    if status.isPunchedIn then OUT else IN
  }

  /** The record a punch constructs. */
  function NewRecord(id: string, employeeId: string, userName: string, punchType: PunchType,
                     now: Timestamp, location: Location, photo: PhotoData): (r: AttendanceRecord)
    ensures r.id == id && r.employeeId == employeeId && r.employeeName == userName
    ensures r.punchType == punchType && r.timestamp == now && r.location == location
    ensures r.photoUri == Some(photo.uri) && !r.isSynced
  {
    AttendanceRecord(id, employeeId, userName, punchType, now, location, Some(photo.uri), false)
  }

  /** The status after a punch whose record has been saved. */
  function AfterPunch(status: PunchStatus, record: AttendanceRecord): (s: PunchStatus)
    ensures s.isPunchedIn != status.isPunchedIn
    ensures s.lastPunchType == Some(record.punchType) && s.lastPunchTime == Some(record.timestamp)
    ensures s.todayRecords == status.todayRecords + [record]
  {
    PunchStatus(!status.isPunchedIn, Some(record.timestamp), Some(record.punchType), status.todayRecords + [record])
  }

  /** The status is the one its records determine: the last record's type and time, or punched out when there is none. */
  ghost predicate Consistent(status: PunchStatus)
  {
    status == StatusFromRecords(status.todayRecords)
  }

  /** An employee with no records today is punched out (the initial status). */
  lemma NoRecordsMeansPunchedOut()
    ensures StatusFromRecords([]) == InitialStatus
    ensures Consistent(InitialStatus)
  {
  }

  /** The derived status says punched in exactly when the last record is an IN, and names its type. */
  lemma StatusFromLastRecord(todayRecords: seq<AttendanceRecord>)
    ensures StatusFromRecords(todayRecords).isPunchedIn <==> |todayRecords| > 0 && todayRecords[|todayRecords| - 1].punchType == IN
    ensures StatusFromRecords(todayRecords).lastPunchType
            == if |todayRecords| == 0 then None else Some(todayRecords[|todayRecords| - 1].punchType)
    ensures StatusFromRecords(todayRecords).lastPunchTime
            == if |todayRecords| == 0 then None else Some(todayRecords[|todayRecords| - 1].timestamp)
  {
  }

  /** A punch of the offered type leaves the status equal to the one reloading the records would derive. */
  lemma PunchKeepsConsistent(status: PunchStatus, record: AttendanceRecord)
    requires Consistent(status)
    requires record.punchType == NextPunchType(status)
    ensures Consistent(AfterPunch(status, record))
    ensures StatusFromRecords(status.todayRecords + [record]) == AfterPunch(status, record)
  {
    var rs := status.todayRecords + [record];
    assert rs[|rs| - 1] == record;
  }

  /** One captured punch: the fresh id, the instant, the location and the photo. */
  datatype Capture = Capture(id: string, at: Timestamp, location: Location, photo: PhotoData)

  /** The status after a run of successful punches, each of the type offered at its turn. */
  function Replay(status: PunchStatus, employeeId: string, userName: string, captures: seq<Capture>): PunchStatus
    decreases |captures|
  {
    if |captures| == 0 then status
    else
      var c := captures[0];
      var record := NewRecord(c.id, employeeId, userName, NextPunchType(status), c.at, c.location, c.photo);
      Replay(AfterPunch(status, record), employeeId, userName, captures[1..])
  }

  /** The records' types alternate IN, OUT, IN, ... from the first one. */
  ghost predicate Alternates(records: seq<AttendanceRecord>)
  {
    forall i :: 0 <= i < |records| ==> records[i].punchType == if i % 2 == 0 then IN else OUT
  }

  lemma {:induction false} ReplayAlternates(status: PunchStatus, employeeId: string, userName: string, captures: seq<Capture>)
    requires Alternates(status.todayRecords)
    requires status.isPunchedIn <==> |status.todayRecords| % 2 == 1
    ensures var after := Replay(status, employeeId, userName, captures);
            && Alternates(after.todayRecords)
            && |after.todayRecords| == |status.todayRecords| + |captures|
            && after.todayRecords[..|status.todayRecords|] == status.todayRecords
            && (after.isPunchedIn <==> |after.todayRecords| % 2 == 1)
    decreases |captures|
  {
    if |captures| > 0 {
      var c := captures[0];
      var record := NewRecord(c.id, employeeId, userName, NextPunchType(status), c.at, c.location, c.photo);
      var next := AfterPunch(status, record);
      assert next.todayRecords[..|status.todayRecords|] == status.todayRecords;
      ReplayAlternates(next, employeeId, userName, captures[1..]);
    }
  }

  /** From the initial status, successive punches alternate IN, OUT, IN, ..., one record per punch. */
  lemma PunchesAlternateFromStart(employeeId: string, userName: string, captures: seq<Capture>)
    ensures var after := Replay(InitialStatus, employeeId, userName, captures);
            && |after.todayRecords| == |captures|
            && Alternates(after.todayRecords)
            && (after.isPunchedIn <==> |captures| % 2 == 1)
  {
    ReplayAlternates(InitialStatus, employeeId, userName, captures);
  }

  /** What a call of `completePunch` shows the user. */
  datatype PunchOutcome =
    | Punched(record: AttendanceRecord)   // the success toast
    | NoLocation                          // 'Could not get location'
    | Failed                              // 'Failed to record attendance' (any exception caught)

  /** The punch screen of one signed-in employee. */
  class PunchScreen {
    const userName: string
    const employeeId: string
    const db: DatabaseService
    var status: PunchStatus
    var currentLocation: Option<Location>
    var isLoading: bool

    constructor (userName: string, employeeId: string, db: DatabaseService)
      ensures this.userName == userName && this.employeeId == employeeId && this.db == db
      ensures status == InitialStatus && currentLocation == None && !isLoading
    {
      this.userName := userName;
      this.employeeId := employeeId;
      this.db := db;
      status := InitialStatus;
      currentLocation := None;
      isLoading := false;
    }

    /** `loadTodayAttendance`; `today` and `dateOf` stand for the current date and the date of an instant. */
    method LoadTodayAttendance(today: string, dateOf: Timestamp -> string)
      modifies this`status
      ensures status == StatusFromRecords(db.TodayRecords(employeeId, today, dateOf))
      ensures Consistent(status)
    {
      var todayRecords := db.TodayRecords(employeeId, today, dateOf);
      var isPunchedIn := false;
      var lastPunchTime: Option<Timestamp> := None;
      var lastPunchType: Option<PunchType> := None;
      if |todayRecords| > 0 {
        var lastRecord := todayRecords[|todayRecords| - 1];
        isPunchedIn := lastRecord.punchType == IN;
        lastPunchTime := Some(lastRecord.timestamp);
        lastPunchType := Some(lastRecord.punchType);
      }
      status := PunchStatus(isPunchedIn, lastPunchTime, lastPunchType, todayRecords);
      assert status == StatusFromRecords(todayRecords);
    }

    /** `getCurrentLocation`: `found` is what the location service returned (`None` for null). */
    method GetCurrentLocation(found: Option<Location>)
      modifies this`currentLocation
      ensures currentLocation == found
    {
      currentLocation := found;
    }

    /**
     * `completePunch`. `photo` is the argument it is called with (`None` when called without one),
     * `fetched` what the 5000 ms location request returns (asked only when no location is held),
     * `now` the clock, `freshId` the generated id, `writeOk` whether the store accepts the write.
     */
    method CompletePunch(photo: Option<PhotoData>, fetched: Option<Location>, now: Timestamp,
                         freshId: string, writeOk: bool) returns (outcome: PunchOutcome)
      requires db.Valid()
      modifies this`status, this`isLoading, db
      ensures db.Valid() && !isLoading
      ensures var location := if currentLocation.Some? then currentLocation else fetched;
              if location.None? then
                outcome == NoLocation && status == old(status) && db.items == old(db.items)
              else if photo.None? || !writeOk then
                outcome == Failed && status == old(status) && db.items == old(db.items)
              else
                var record := NewRecord(freshId, employeeId, userName, NextPunchType(old(status)), now, location.value, photo.value);
                && outcome == Punched(record)
                && db.items == old(db.items)[RecordsKey := RecordList(old(db.AttendanceRecords()) + [record])]
                && db.AttendanceRecords() == old(db.AttendanceRecords()) + [record]
                && status == AfterPunch(old(status), record)
      ensures outcome.Punched? ==>
                && outcome.record.employeeId == employeeId
                && outcome.record.employeeName == userName
                && outcome.record.punchType == (if old(status).isPunchedIn then OUT else IN)
                && outcome.record.photoUri == Some(photo.value.uri)
                && !outcome.record.isSynced
                && status.isPunchedIn == !old(status).isPunchedIn
                && status.lastPunchType == Some(outcome.record.punchType)
                && status.todayRecords == old(status).todayRecords + [outcome.record]
    {
      isLoading := true;
      var location := currentLocation;
      if location.None? {
        location := fetched;
      }
      if location.None? {
        isLoading := false;
        return NoLocation;
      }
      var punchType := if status.isPunchedIn then OUT else IN;
      if photo.None? {
        // reading `photoData.uri` of a missing photo throws; the catch shows the failure toast
        isLoading := false;
        return Failed;
      }
      var record := NewRecord(freshId, employeeId, userName, punchType, now, location.value, photo.value);
      var saved := db.SaveAttendanceRecord(record, writeOk);
      if saved == StorageError {
        isLoading := false;
        return Failed;
      }
      status := PunchStatus(!status.isPunchedIn, Some(now), Some(punchType), status.todayRecords + [record]);
      isLoading := false;
      outcome := Punched(record);
    }

    /** `handleLogout`: clears the stored session and reports whether the app is then told to log out. */
    method HandleLogout(tokenRemoveOk: bool, idRemoveOk: bool) returns (loggedOut: bool)
      requires db.Valid()
      modifies db
      ensures db.Valid()
      ensures loggedOut <==> tokenRemoveOk && idRemoveOk
      ensures db.items == if !tokenRemoveOk then old(db.items)
                          else if !idRemoveOk then old(db.items) - {AuthTokenKey}
                          else old(db.items) - {AuthTokenKey, EmployeeIdKey}
      ensures loggedOut ==> db.AuthToken() == None && db.CurrentEmployeeId() == None
    {
      var cleared := db.ClearAuth(tokenRemoveOk, idRemoveOk);
      loggedOut := cleared == Done;
    }
  }

  /**
   * The camera screen calls the punch completion without a photo: with no location it reports
   * that, otherwise reading the missing photo's `uri` fails. Either way nothing is recorded.
   */
  method PunchFromCameraScreen(screen: PunchScreen, fetched: Option<Location>, now: Timestamp, freshId: string, writeOk: bool)
    returns (outcome: PunchOutcome)
    requires screen.db.Valid()
    modifies screen`status, screen`isLoading, screen.db
    ensures outcome == if screen.currentLocation.None? && fetched.None? then NoLocation else Failed
    ensures screen.status == old(screen.status) && screen.db.items == old(screen.db.items)
  {
    outcome := screen.CompletePunch(None, fetched, now, freshId, writeOk);
  }
}
