/**
 * Admin reporting (components/AdminPanel.tsx): filtering by employee and date, newest-first
 * ordering, the CSV export and the statistics counts.
 */
module Admin {
  import opened Options
  import opened Seqs
  import opened Strings
  import opened Records
  import opened Database

  // ---------------------------------------------------------------------------------------------
  // Newest-first ordering: `Array.prototype.sort` with the comparator `b.time - a.time`. The model
  // inserts each record before the first one that is not newer, so records with equal timestamps
  // keep their relative order (`SortKeepsTies`).

  ghost predicate SortedNewestFirst(s: seq<AttendanceRecord>)
  {
    forall i, j :: 0 <= i < j < |s| ==> s[i].timestamp >= s[j].timestamp
  }

  /** A record at least as new as every record of a newest-first list can go in front of it. */
  lemma SortedCons(x: AttendanceRecord, s: seq<AttendanceRecord>)
    requires SortedNewestFirst(s)
    requires forall y :: y in s ==> x.timestamp >= y.timestamp
    ensures SortedNewestFirst([x] + s)
  {
    var t := [x] + s;
    forall i, j | 0 <= i < j < |t| ensures t[i].timestamp >= t[j].timestamp {
      assert t[j] == s[j - 1];
      if i > 0 {
        assert t[i] == s[i - 1];
      }
    }
  }

  /** Insert `r` before the first element that is not newer than it. */
  function InsertNewestFirst(r: AttendanceRecord, s: seq<AttendanceRecord>): (t: seq<AttendanceRecord>)
    ensures multiset(t) == multiset(s) + multiset{r}
  {
    if |s| == 0 || s[0].timestamp <= r.timestamp then [r] + s
    else
      assert s == [s[0]] + s[1..];
      [s[0]] + InsertNewestFirst(r, s[1..])
  }

  /** Inserting into a newest-first list keeps it newest first. */
  lemma {:induction false} InsertKeepsSorted(r: AttendanceRecord, s: seq<AttendanceRecord>)
    requires SortedNewestFirst(s)
    ensures SortedNewestFirst(InsertNewestFirst(r, s))
  {
    if |s| == 0 || s[0].timestamp <= r.timestamp {
      forall y | y in s ensures r.timestamp >= y.timestamp {
        var k :| 0 <= k < |s| && s[k] == y;
      }
      SortedCons(r, s);
    } else {
      var tail := InsertNewestFirst(r, s[1..]);
      InsertKeepsSorted(r, s[1..]);
      forall y | y in tail ensures s[0].timestamp >= y.timestamp {
        assert y in multiset(tail);
        assert y == r || y in s[1..];
      }
      SortedCons(s[0], tail);
    }
  }

  /** The ordering returns the same records, newest first. */
  function SortNewestFirst(s: seq<AttendanceRecord>): (t: seq<AttendanceRecord>)
    ensures SortedNewestFirst(t)
    ensures multiset(t) == multiset(s)
  {
    if |s| == 0 then []
    else
      assert s == [s[0]] + s[1..];
      InsertKeepsSorted(s[0], SortNewestFirst(s[1..]));
      InsertNewestFirst(s[0], SortNewestFirst(s[1..]))
  }

  /** The records stamped with instant `t`. */
  function AtTime(t: Timestamp): AttendanceRecord -> bool
  {
    (r: AttendanceRecord) => r.timestamp == t
  }

  /** Inserting places `r` ahead of every record with its timestamp and reorders no other record. */
  lemma {:induction false} InsertKeepsTies(r: AttendanceRecord, s: seq<AttendanceRecord>, t: Timestamp)
    ensures Filter(InsertNewestFirst(r, s), AtTime(t)) == (if r.timestamp == t then [r] else []) + Filter(s, AtTime(t))
  {
    var p := AtTime(t);
    var mine := if r.timestamp == t then [r] else [];
    if |s| == 0 || s[0].timestamp <= r.timestamp {
      assert ([r] + s)[1..] == s;
    } else {
      var tail := InsertNewestFirst(r, s[1..]);
      var first := if p(s[0]) then [s[0]] else [];
      InsertKeepsTies(r, s[1..], t);
      assert ([s[0]] + tail)[1..] == tail;
      assert Filter([s[0]] + tail, p) == first + (mine + Filter(s[1..], p));
      assert Filter(s, p) == first + Filter(s[1..], p);
      Interchange(first, mine, Filter(s[1..], p));
    }
  }

  /** Two pieces of which one is empty can trade places. */
  lemma Interchange<T>(a: seq<T>, b: seq<T>, rest: seq<T>)
    requires a == [] || b == []
    ensures a + (b + rest) == b + (a + rest)
  {
    if a == [] {
      assert a + (b + rest) == b + rest;
    } else {
      assert b + (a + rest) == a + rest;
    }
  }

  /** The ordering is stable: records with the same timestamp keep their relative order. */
  lemma {:induction false} SortKeepsTies(s: seq<AttendanceRecord>, t: Timestamp)
    ensures Filter(SortNewestFirst(s), AtTime(t)) == Filter(s, AtTime(t))
  {
    if |s| > 0 {
      SortKeepsTies(s[1..], t);
      InsertKeepsTies(s[0], SortNewestFirst(s[1..]), t);
      assert Filter(s, AtTime(t)) == (if s[0].timestamp == t then [s[0]] else []) + Filter(s[1..], AtTime(t));
    }
  }

  // ---------------------------------------------------------------------------------------------
  // Filtering. `dateOf` stands for the date text of an instant (`toDateString`), `parseDay` for the
  // date text of the day picked in the date input (`new Date(selectedDate).toDateString()`).

  const AllEmployees := "all"

  /** The test a record must pass to be listed. */
  function Listed(selectedEmployee: string, selectedDate: string, dateOf: Timestamp -> string,
                  parseDay: string -> string): AttendanceRecord -> bool
  {
    (r: AttendanceRecord) =>
      && (selectedEmployee == AllEmployees || r.employeeId == selectedEmployee)
      && (selectedDate == "" || dateOf(r.timestamp) == parseDay(selectedDate))
  }

  /**
   * `getFilteredRecords`: employee filter unless 'all', date filter unless empty, then newest
   * first. The listed records are exactly those passing both filters, each as often as stored.
   */
  function FilteredRecords(records: seq<AttendanceRecord>, selectedEmployee: string, selectedDate: string,
                           dateOf: Timestamp -> string, parseDay: string -> string): (r: seq<AttendanceRecord>)
    ensures SortedNewestFirst(r)
    ensures multiset(r) == multiset(Filter(records, Listed(selectedEmployee, selectedDate, dateOf, parseDay)))
  {
    var byEmployee := if selectedEmployee != AllEmployees then Filter(records, RecordOfEmployee(selectedEmployee)) else records;
    var byDate := if selectedDate != "" then Filter(byEmployee, RecordOnDay(parseDay(selectedDate), dateOf)) else byEmployee;
    var listed := Listed(selectedEmployee, selectedDate, dateOf, parseDay);
    assert multiset(byDate) == multiset(Filter(records, listed)) by {
      forall x ensures multiset(byDate)[x] == multiset(Filter(records, listed))[x] {
        FilterCount(records, listed, x);
        if selectedEmployee != AllEmployees {
          FilterCount(records, RecordOfEmployee(selectedEmployee), x);
        }
        if selectedDate != "" {
          FilterCount(byEmployee, RecordOnDay(parseDay(selectedDate), dateOf), x);
        }
      }
    }
    SortNewestFirst(byDate)
  }

  /** A record is listed exactly when it is stored and passes both filters. */
  lemma FilteredRecordsMembership(records: seq<AttendanceRecord>, selectedEmployee: string, selectedDate: string,
                                  dateOf: Timestamp -> string, parseDay: string -> string, x: AttendanceRecord)
    ensures x in FilteredRecords(records, selectedEmployee, selectedDate, dateOf, parseDay)
            <==> x in records
                 && (selectedEmployee == AllEmployees || x.employeeId == selectedEmployee)
                 && (selectedDate == "" || dateOf(x.timestamp) == parseDay(selectedDate))
  {
    var listed := Listed(selectedEmployee, selectedDate, dateOf, parseDay);
    FilterCount(records, listed, x);
    assert x in FilteredRecords(records, selectedEmployee, selectedDate, dateOf, parseDay)
           <==> multiset(Filter(records, listed))[x] > 0;
  }

  /** With every employee and no date, every stored record is listed. */
  lemma UnfilteredListsEverything(records: seq<AttendanceRecord>, dateOf: Timestamp -> string, parseDay: string -> string)
    ensures multiset(FilteredRecords(records, AllEmployees, "", dateOf, parseDay)) == multiset(records)
    ensures |FilteredRecords(records, AllEmployees, "", dateOf, parseDay)| == |records|
  {
    var listed := Listed(AllEmployees, "", dateOf, parseDay);
    FilterKeepsAll(records, listed);
    assert |multiset(FilteredRecords(records, AllEmployees, "", dateOf, parseDay))| == |multiset(records)|;
  }

  // ---------------------------------------------------------------------------------------------
  // Export.

  const Header: seq<string> := ["Employee", "Punch Type", "Timestamp", "Location", "Synced"]
  const UnknownEmployee := "Unknown Employee"

  /** `getEmployeeName`: the first employee with that id, unless missing or its name is empty. */
  function EmployeeName(employees: seq<Employee>, employeeId: string): (name: string)
    ensures name != UnknownEmployee ==> exists e :: e in employees && e.id == employeeId && e.name == name
    ensures (forall e :: e in employees ==> e.id != employeeId) ==> name == UnknownEmployee
    ensures forall i ::
              (0 <= i < |employees| && employees[i].id == employeeId &&
               forall j :: 0 <= j < i ==> employees[j].id != employeeId)
              ==> name == if employees[i].name != "" then employees[i].name else UnknownEmployee
  {
    match Find(employees, EmployeeWithId(employeeId))
    case Some(e) => if e.name != "" then e.name else UnknownEmployee
    case None => UnknownEmployee
  }

  /** One data row of the export; `formatDate` and `formatNumber` stand for the locale formatting. */
  function CsvRow(employees: seq<Employee>, formatDate: Timestamp -> string, formatNumber: real -> string,
                  r: AttendanceRecord): (row: seq<string>)
    ensures |row| == |Header|
    ensures row[0] == EmployeeName(employees, r.employeeId)
    ensures (row[1] == "IN" <==> IsPunchIn(r)) && (row[1] == "OUT" <==> !IsPunchIn(r))
    ensures row[2] == formatDate(r.timestamp)
    ensures row[3] == formatNumber(r.location.latitude) + ", " + formatNumber(r.location.longitude)
    ensures (row[4] == "No" <==> IsUnsynced(r)) && (row[4] == "Yes" <==> r.isSynced)
  {
    [
      EmployeeName(employees, r.employeeId),
      PunchTypeName(r.punchType),
      formatDate(r.timestamp),
      formatNumber(r.location.latitude) + ", " + formatNumber(r.location.longitude),
      if r.isSynced then "Yes" else "No"
    ]
  }

  /** `CsvRow` with the employee list and the formatting fixed, as a function of the record. */
  function CsvRowOf(employees: seq<Employee>, formatDate: Timestamp -> string, formatNumber: real -> string): AttendanceRecord -> seq<string>
  {
    (r: AttendanceRecord) => CsvRow(employees, formatDate, formatNumber, r)
  }

  /** `csvData`: the header, then row `i` for the `i`-th listed record. */
  function CsvData(filtered: seq<AttendanceRecord>, employees: seq<Employee>,
                   formatDate: Timestamp -> string, formatNumber: real -> string): (rows: seq<seq<string>>)
    ensures |rows| == |filtered| + 1 && rows[0] == Header
    ensures forall i :: 1 <= i < |rows| ==> rows[i] == CsvRow(employees, formatDate, formatNumber, filtered[i - 1])
    ensures forall i :: 1 <= i < |rows| ==>
              var r := filtered[i - 1];
              && |rows[i]| == 5
              && rows[i][0] == EmployeeName(employees, r.employeeId)
              && rows[i][1] == PunchTypeName(r.punchType)
              && rows[i][2] == formatDate(r.timestamp)
              && rows[i][3] == formatNumber(r.location.latitude) + ", " + formatNumber(r.location.longitude)
              && rows[i][4] == (if r.isSynced then "Yes" else "No")
  {
    var rows := [Header] + Map(filtered, CsvRowOf(employees, formatDate, formatNumber));
    assert forall i :: 1 <= i < |rows| ==> rows[i] == CsvRow(employees, formatDate, formatNumber, filtered[i - 1]);
    rows
  }

  /** One line of the export: the row's fields joined with ','. */
  function CsvLine(row: seq<string>): string
  {
    Join(row, ",")
  }

  /** No field of the row holds a line break. */
  ghost predicate NoLineBreaks(row: seq<string>)
  {
    forall j :: 0 <= j < |row| ==> '\n' !in row[j]
  }

  /**
   * `csvContent`: fields joined with ',', lines with '\n', nothing quoted or escaped. When no field
   * holds a line break, splitting the text at line breaks gives back one line per row; in
   * general it gives the pieces of each row's line in turn, a field's own line breaks included.
   */
  function CsvContent(rows: seq<seq<string>>): (content: string)
    ensures |rows| > 0 ==> Split(content, '\n') == SplitEach(Map(rows, CsvLine), '\n')
    ensures |rows| > 0 && (forall i :: 0 <= i < |rows| ==> NoLineBreaks(rows[i]))
            ==> Split(content, '\n') == Map(rows, CsvLine)
  {
    var lines := Map(rows, CsvLine);
    assert |rows| > 0 ==> Split(Join(lines, "\n"), '\n') == SplitEach(lines, '\n') by {
      if |rows| > 0 {
        SplitJoinPieces(lines, '\n');
      }
    }
    assert |rows| > 0 && (forall i :: 0 <= i < |rows| ==> NoLineBreaks(rows[i]))
           ==> Split(Join(lines, "\n"), '\n') == lines by {
      if |rows| > 0 && (forall i :: 0 <= i < |rows| ==> NoLineBreaks(rows[i])) {
        CsvLinesAvoidBreaks(rows);
        SplitJoin(lines, '\n');
      }
    }
    Join(lines, "\n")
  }

  /** The download's file name. */
  function ExportFileName(selectedDate: string): (name: string)
    ensures selectedDate != "" ==> name == "attendance_" + selectedDate + ".csv"
    ensures selectedDate == "" ==> name == "attendance_all.csv"
  {
    "attendance_" + (if selectedDate != "" then selectedDate else "all") + ".csv"
  }

  /** A join contains a character only if the separator or some part does. */
  lemma {:induction false} JoinAvoids(parts: seq<string>, sep: string, c: char)
    requires c !in sep
    requires forall i :: 0 <= i < |parts| ==> c !in parts[i]
    ensures c !in Join(parts, sep)
  {
    if |parts| > 1 {
      JoinAvoids(parts[1..], sep, c);
    }
  }

  /** The joined text of every line of the export is free of line breaks. */
  lemma CsvLinesAvoidBreaks(rows: seq<seq<string>>)
    requires forall i :: 0 <= i < |rows| ==> NoLineBreaks(rows[i])
    ensures forall k :: 0 <= k < |rows| ==> '\n' !in Map(rows, CsvLine)[k]
  {
    forall k | 0 <= k < |rows| ensures '\n' !in CsvLine(rows[k]) {
      JoinAvoids(rows[k], ",", '\n');
    }
  }

  /** Rows built from records whose rows hold no line break, under the header, hold none either. */
  lemma CsvDataNoLineBreaks(filtered: seq<AttendanceRecord>, employees: seq<Employee>,
                            formatDate: Timestamp -> string, formatNumber: real -> string)
    requires forall i :: 0 <= i < |filtered| ==> NoLineBreaks(CsvRow(employees, formatDate, formatNumber, filtered[i]))
    ensures var rows := CsvData(filtered, employees, formatDate, formatNumber);
            forall i :: 0 <= i < |rows| ==> NoLineBreaks(rows[i])
  {
    var rows := CsvData(filtered, employees, formatDate, formatNumber);
    assert NoLineBreaks(Header);
    forall i | 1 <= i < |rows| ensures NoLineBreaks(rows[i]) {
      assert NoLineBreaks(CsvRow(employees, formatDate, formatNumber, filtered[i - 1]));
    }
  }

  /**
   * When no field holds a line break, the export reads back as exactly one line per listed
   * record after the header line.
   */
  lemma CsvLines(filtered: seq<AttendanceRecord>, employees: seq<Employee>,
                 formatDate: Timestamp -> string, formatNumber: real -> string)
    requires forall i :: 0 <= i < |filtered| ==> NoLineBreaks(CsvRow(employees, formatDate, formatNumber, filtered[i]))
    ensures var rows := CsvData(filtered, employees, formatDate, formatNumber);
            var lines := Split(CsvContent(rows), '\n');
            && |lines| == |filtered| + 1
            && Split(lines[0], ',') == Header
            && forall i :: 1 <= i < |lines| ==> lines[i] == CsvLine(rows[i])
  {
    CsvDataNoLineBreaks(filtered, employees, formatDate, formatNumber);
    SplitJoin(Header, ',');
  }

  /**
   * As written, the Location field `lat, lon` carries an unquoted comma, and the other fields are
   * not quoted either: read back at its commas, a data row gives the pieces of its name, its
   * type, the pieces of its date text, of the latitude and of ' ' + longitude, and its synced
   * flag. That is at least six fields under a header of five, whatever the formatting produces.
   */
  lemma DataRowSplit(employees: seq<Employee>, formatDate: Timestamp -> string, formatNumber: real -> string,
                     r: AttendanceRecord)
    ensures Split(CsvLine(Header), ',') == Header
    ensures Split(CsvLine(CsvRow(employees, formatDate, formatNumber, r)), ',')
            == Split(EmployeeName(employees, r.employeeId), ',') + [PunchTypeName(r.punchType)]
               + Split(formatDate(r.timestamp), ',') + Split(formatNumber(r.location.latitude), ',')
               + Split(" " + formatNumber(r.location.longitude), ',') + [if r.isSynced then "Yes" else "No"]
    ensures |Split(CsvLine(CsvRow(employees, formatDate, formatNumber, r)), ',')| >= |Header| + 1
  {
    SplitJoin(Header, ',');
    var kind := PunchTypeName(r.punchType);
    var synced := if r.isSynced then "Yes" else "No";
    assert ',' !in kind && ',' !in synced;
    RowPieces(EmployeeName(employees, r.employeeId), kind, formatDate(r.timestamp),
              formatNumber(r.location.latitude), formatNumber(r.location.longitude), synced);
  }

  /** A row shaped like a data row, with comma-free type and synced fields, read back at its commas. */
  lemma RowPieces(name: string, kind: string, date: string, lat: string, lon: string, synced: string)
    requires ',' !in kind && ',' !in synced
    ensures Split(CsvLine([name, kind, date, lat + ", " + lon, synced]), ',')
            == Split(name, ',') + [kind] + Split(date, ',') + Split(lat, ',') + Split(" " + lon, ',') + [synced]
  {
    var loc := lat + ", " + lon;
    FiveFieldPieces(name, kind, date, loc, synced);
    SplitWithoutSeparator(kind, ',');
    SplitWithoutSeparator(synced, ',');
    assert loc == lat + [','] + (" " + lon);
    SplitConcat(lat, ',', " " + lon);
    Regroup(Split(name, ','), [kind], Split(date, ','), Split(lat, ','), Split(" " + lon, ','), [synced]);
  }

  /** Five comma-joined fields read back at the commas: the pieces of each field in turn. */
  lemma FiveFieldPieces(a: string, b: string, c: string, d: string, e: string)
    ensures Split(CsvLine([a, b, c, d, e]), ',')
            == Split(a, ',') + (Split(b, ',') + (Split(c, ',') + (Split(d, ',') + Split(e, ','))))
  {
    var parts := [a, b, c, d, e];
    SplitJoinPieces(parts, ',');
    assert parts[1..] == [b, c, d, e];
    assert parts[1..][1..] == [c, d, e];
    assert parts[1..][1..][1..] == [d, e];
    assert parts[1..][1..][1..][1..] == [e];
    assert [e][1..] == [];
    var e4 := SplitEach([e], ',');
    assert e4 == Split(e, ',') + SplitEach([], ',');
    var e3 := SplitEach([d, e], ',');
    assert e3 == Split(d, ',') + e4;
    var e2 := SplitEach([c, d, e], ',');
    assert e2 == Split(c, ',') + e3;
    var e1 := SplitEach([b, c, d, e], ',');
    assert e1 == Split(b, ',') + e2;
    assert SplitEach(parts, ',') == Split(a, ',') + e1;
  }

  /** Re-bracketing the pieces of a data row. */
  lemma Regroup<T>(a: seq<T>, b: seq<T>, c: seq<T>, d: seq<T>, e: seq<T>, f: seq<T>)
    ensures a + (b + (c + ((d + e) + f))) == a + b + c + d + e + f
  {
  }

  /**
   * The CSV's Employee column comes from the employee list, never from the record's stored name:
   * the stored name never changes a row, and a record whose employee is not listed is exported
   * as Unknown Employee.
   */
  lemma CsvIgnoresStoredName(employees: seq<Employee>, formatDate: Timestamp -> string, formatNumber: real -> string,
                             r: AttendanceRecord, storedName: string)
    ensures CsvRow(employees, formatDate, formatNumber, r.(employeeName := storedName)) == CsvRow(employees, formatDate, formatNumber, r)
    ensures (forall e :: e in employees ==> e.id != r.employeeId) ==> CsvRow(employees, formatDate, formatNumber, r)[0] == UnknownEmployee
  {
  }

  // ---------------------------------------------------------------------------------------------
  // Statistics.

  datatype Statistics = Statistics(totalEmployees: nat, totalRecords: nat, punchIns: nat, unsynced: nat)

  /** The four counts the panel shows for the listed records. */
  function Stats(employees: seq<Employee>, filtered: seq<AttendanceRecord>): (s: Statistics)
    ensures s.totalEmployees == |employees| && s.totalRecords == |filtered|
    ensures s.punchIns <= s.totalRecords && s.unsynced <= s.totalRecords
  {
    Statistics(|employees|, |filtered|, |Filter(filtered, IsPunchIn)|, |Filter(filtered, IsUnsynced)|)
  }

  /** A row whose field `k` is `text`. */
  function FieldIs(k: nat, text: string): seq<string> -> bool
  {
    (row: seq<string>) => k < |row| && row[k] == text
  }

  /** Punch Ins counts the exported rows of type IN, and Unsynced those marked 'No'. */
  lemma StatsMatchExport(employees: seq<Employee>, filtered: seq<AttendanceRecord>,
                         formatDate: Timestamp -> string, formatNumber: real -> string)
    ensures var rows := CsvData(filtered, employees, formatDate, formatNumber);
            && Stats(employees, filtered).punchIns == |Filter(rows[1..], FieldIs(1, "IN"))|
            && Stats(employees, filtered).unsynced == |Filter(rows[1..], FieldIs(4, "No"))|
  {
    var row := CsvRowOf(employees, formatDate, formatNumber);
    var rows := CsvData(filtered, employees, formatDate, formatNumber);
    assert rows[1..] == Map(filtered, row);
    forall x: AttendanceRecord ensures FieldIs(1, "IN")(row(x)) == IsPunchIn(x) {
      assert PunchTypeName(x.punchType) == "IN" <==> x.punchType == IN;
    }
    FilterMapLength(filtered, row, IsPunchIn, FieldIs(1, "IN"));
    FilterMapLength(filtered, row, IsUnsynced, FieldIs(4, "No"));
  }

  // ---------------------------------------------------------------------------------------------

  /** The admin panel's component state. */
  class AdminPanel {
    const db: DatabaseService
    var employees: seq<Employee>
    var attendanceRecords: seq<AttendanceRecord>
    var selectedEmployee: string
    var selectedDate: string
    var isLoading: bool

    constructor (db: DatabaseService)
      ensures this.db == db && employees == [] && attendanceRecords == []
      ensures selectedEmployee == AllEmployees && selectedDate == "" && !isLoading
    {
      this.db := db;
      employees := [];
      attendanceRecords := [];
      selectedEmployee := AllEmployees;
      selectedDate := "";
      isLoading := false;
    }

    /** `loadData`: both lists are read from the store. */
    method LoadData()
      modifies this`employees, this`attendanceRecords, this`isLoading
      ensures employees == db.Employees() && attendanceRecords == db.AttendanceRecords() && !isLoading
    {
      isLoading := true;
      employees := db.Employees();
      attendanceRecords := db.AttendanceRecords();
      isLoading := false;
    }

    method SelectEmployee(employeeId: string)
      modifies this`selectedEmployee
      ensures selectedEmployee == employeeId
    {
      selectedEmployee := employeeId;
    }

    method SelectDate(date: string)
      modifies this`selectedDate
      ensures selectedDate == date
    {
      selectedDate := date;
    }

    /**
     * `getFilteredRecords`. The sort works in place on the array it is given: when neither filter
     * applies that array is the component's own record list, which is left sorted.
     */
    method GetFilteredRecords(dateOf: Timestamp -> string, parseDay: string -> string) returns (filtered: seq<AttendanceRecord>)
      modifies this`attendanceRecords
      ensures filtered == FilteredRecords(old(attendanceRecords), selectedEmployee, selectedDate, dateOf, parseDay)
      ensures attendanceRecords == if selectedEmployee == AllEmployees && selectedDate == "" then filtered else old(attendanceRecords)
      ensures multiset(attendanceRecords) == multiset(old(attendanceRecords))
    {
      filtered := attendanceRecords;
      var aliased := true;
      if selectedEmployee != AllEmployees {
        filtered := Filter(filtered, RecordOfEmployee(selectedEmployee));
        aliased := false;
      }
      if selectedDate != "" {
        filtered := Filter(filtered, RecordOnDay(parseDay(selectedDate), dateOf));
        aliased := false;
      }
      filtered := SortNewestFirst(filtered);
      if aliased {
        attendanceRecords := filtered;
      }
    }

    /** `exportData`: the file name and text of the download. */
    method ExportData(dateOf: Timestamp -> string, parseDay: string -> string,
                      formatDate: Timestamp -> string, formatNumber: real -> string)
      returns (fileName: string, content: string)
      modifies this`attendanceRecords
      ensures var filtered := FilteredRecords(old(attendanceRecords), selectedEmployee, selectedDate, dateOf, parseDay);
              content == CsvContent(CsvData(filtered, employees, formatDate, formatNumber))
      ensures fileName == ExportFileName(selectedDate)
      ensures attendanceRecords == if selectedEmployee == AllEmployees && selectedDate == "" then SortNewestFirst(old(attendanceRecords)) else old(attendanceRecords)
    {
      var filteredRecords := GetFilteredRecords(dateOf, parseDay);
      var csvData := CsvData(filteredRecords, employees, formatDate, formatNumber);
      content := CsvContent(csvData);
      fileName := ExportFileName(selectedDate);
    }

    /** `clearAllData`: only after confirmation; on success the panel reloads, reading empty lists. */
    method ClearAllData(confirmed: bool, clearOk: bool)
      requires db.Valid()
      modifies this`employees, this`attendanceRecords, this`isLoading, db
      ensures db.Valid()
      ensures !confirmed ==> db.items == old(db.items) && employees == old(employees) && attendanceRecords == old(attendanceRecords)
      ensures confirmed && !clearOk ==> db.items == old(db.items) && employees == old(employees) && attendanceRecords == old(attendanceRecords)
      ensures confirmed && clearOk ==> db.items == map[] && employees == [] && attendanceRecords == []
      ensures !(confirmed && clearOk) ==> isLoading == old(isLoading)
      ensures confirmed && clearOk ==> !isLoading
    {
      if confirmed {
        var cleared := db.ClearAllData(clearOk);
        if cleared == Done {
          LoadData();
        }
      }
    }
  }
}
