/**
 The employee listing: an aggregation pipeline of filters, five joins, a search, a sort and a page,
 and the plain description of what it returns.
 */
module Directory {
  import opened Outcomes
  import Decimal
  import Regex

  type Id = nat

  datatype Doc<T> = Doc(id: Id, body: T)

  datatype AccountStatus = Invited | PendingApproval | Active | Suspended | Deactivated

  datatype User = User(
    firstName: string, lastName: string, email: string, status: AccountStatus, passwordHash: Option<string>)

  datatype Employee = Employee(
    employeeId: string, userId: Option<Id>, roleId: Option<Id>, departmentId: Option<Id>,
    teamId: Option<Id>, positionId: Option<Id>, createdAt: int)

  datatype Store = Store(
    employees: seq<Employee>, users: seq<Doc<User>>, roles: seq<Doc<string>>,
    departments: seq<Doc<string>>, teams: seq<Doc<string>>, positions: seq<Doc<string>>)

  /** The query string; ids that are not well-formed have been dropped. */
  datatype Query = Query(
    page: Option<string>, limit: Option<string>, search: Option<string>,
    departmentId: Option<Id>, teamId: Option<Id>, status: Option<AccountStatus>)

  /** A document in flight: the employee with whatever its references have resolved to so far. */
  datatype Row = Row(
    employee: Employee, user: Option<User>, role: Option<string>, department: Option<string>,
    team: Option<string>, position: Option<string>)

  datatype Listing = Listing(data: seq<Row>, total: nat, page: int, limit: int)

  // ---- Reading page and limit ----

  predicate IsSpace(c: char) {
    c in " \t\n\r" || c as int in {0x0B, 0x0C, 0xA0, 0x1680, 0x2028, 0x2029, 0x202F, 0x205F, 0x3000, 0xFEFF}
    || 0x2000 <= c as int <= 0x200A
  }

  function TrimStart(s: string): string {
    if s != "" && IsSpace(s[0]) then TrimStart(s[1..]) else s
  }

  function TrimEnd(s: string): string {
    if s != "" && IsSpace(s[|s| - 1]) then TrimEnd(s[..|s| - 1]) else s
  }

  function Trim(s: string): string {
    TrimEnd(TrimStart(s))
  }

  function DigitPrefix(s: string): (d: string)
    ensures Decimal.AllDigits(d)
  {
    if s != "" && Decimal.IsDigit(s[0]) then [s[0]] + DigitPrefix(s[1..]) else ""
  }

  /** `parseInt(s, 10)`, with `NaN` as None. */
  function ParseInt(s: string): Option<int> {
    var t := TrimStart(s);
    var signed := t != "" && (t[0] == '-' || t[0] == '+');
    var digits := DigitPrefix(if signed then t[1..] else t);
    var n: int := Decimal.Value(digits);
    if digits == "" then None else Some(if signed && t[0] == '-' then -n else n)
  }

  function OrElse(text: Option<string>, default: string): string {
    if text.None? || text.value == "" then default else text.value
  }

  function PageOf(q: Query): (page: int)
    ensures page >= 1
  {
    var raw := ParseInt(OrElse(q.page, "1"));
    if raw.None? || raw.value < 1 then 1 else raw.value
  }

  function LimitOf(q: Query): (limit: int)
    ensures 1 <= limit <= 100
  {
    var raw := ParseInt(OrElse(q.limit, "20"));
    if raw.None? || raw.value < 1 then 20 else if raw.value < 100 then raw.value else 100
  }

  function Skip(page: int, limit: int): (skip: nat)
    requires page >= 1 && limit >= 1
  {
    (page - 1) * limit
  }

  // ---- Stages ----

  function Lookup<T>(from: seq<Doc<T>>, id: Option<Id>): seq<T> {
    if from == [] || id.None? then []
    else (if from[0].id == id.value then [from[0].body] else []) + Lookup(from[1..], id)
  }

  /** One row per match; `preserveNullAndEmptyArrays` keeps a row without matches. */
  function Unwind<T>(row: Row, matches: seq<T>, put: (Row, Option<T>) -> Row): seq<Row> {
    if matches == [] then [put(row, None)] else seq(|matches|, i requires 0 <= i < |matches| => put(row, Some(matches[i])))
  }

  function Join<T>(rows: seq<Row>, from: seq<Doc<T>>, key: Row -> Option<Id>, put: (Row, Option<T>) -> Row): seq<Row> {
    if rows == [] then [] else Unwind(rows[0], Lookup(from, key(rows[0])), put) + Join(rows[1..], from, key, put)
  }

  function UserOf(r: Row): Option<Id> { r.employee.userId }
  function RoleOf(r: Row): Option<Id> { r.employee.roleId }
  function DepartmentOf(r: Row): Option<Id> { r.employee.departmentId }
  function TeamOf(r: Row): Option<Id> { r.employee.teamId }
  function PositionOf(r: Row): Option<Id> { r.employee.positionId }

  function PutUser(r: Row, d: Option<User>): Row { r.(user := d) }
  function PutRole(r: Row, d: Option<string>): Row { r.(role := d) }
  function PutDepartment(r: Row, d: Option<string>): Row { r.(department := d) }
  function PutTeam(r: Row, d: Option<string>): Row { r.(team := d) }
  function PutPosition(r: Row, d: Option<string>): Row { r.(position := d) }

  predicate InUnit(q: Query, e: Employee) {
    (q.departmentId.Some? ==> e.departmentId == q.departmentId) && (q.teamId.Some? ==> e.teamId == q.teamId)
  }

  function Match(employees: seq<Employee>, q: Query): seq<Row> {
    if employees == [] then []
    else (if InUnit(q, employees[0]) then [Row(employees[0], None, None, None, None, None)] else [])
         + Match(employees[1..], q)
  }

  function Term(q: Query): string {
    if q.search.None? then "" else Trim(q.search.value)
  }

  /** Any of the four searched fields matches the compiled pattern; a missing field does not. */
  predicate Found(row: Row, pattern: string, fold: char -> char) {
    || (row.user.Some? && (|| Regex.Matches(pattern, row.user.value.firstName, fold)
                           || Regex.Matches(pattern, row.user.value.lastName, fold)
                           || Regex.Matches(pattern, row.user.value.email, fold)))
    || Regex.Matches(pattern, row.employee.employeeId, fold)
  }

  predicate HasStatus(row: Row, status: AccountStatus) {
    row.user.Some? && row.user.value.status == status
  }

  function MatchStatus(rows: seq<Row>, status: AccountStatus): seq<Row> {
    if rows == [] then [] else (if HasStatus(rows[0], status) then [rows[0]] else []) + MatchStatus(rows[1..], status)
  }

  function MatchSearch(rows: seq<Row>, pattern: string, fold: char -> char): seq<Row> {
    if rows == [] then []
    else (if Found(rows[0], pattern, fold) then [rows[0]] else []) + MatchSearch(rows[1..], pattern, fold)
  }

  /** `$sort: { createdAt: -1 }`, rows created at the same instant keeping their order. */
  function Insert(row: Row, sorted: seq<Row>): seq<Row> {
    if sorted == [] || row.employee.createdAt >= sorted[0].employee.createdAt then [row] + sorted
    else [sorted[0]] + Insert(row, sorted[1..])
  }

  function Sort(rows: seq<Row>): seq<Row> {
    if rows == [] then [] else Insert(rows[0], Sort(rows[1..]))
  }

  function Strip(row: Row): Row {
    if row.user.Some? then row.(user := Some(row.user.value.(passwordHash := None))) else row
  }

  function Min(a: int, b: int): int {
    if a < b then a else b
  }

  function Page(rows: seq<Row>, skip: nat, limit: nat): seq<Row> {
    rows[Min(skip, |rows|)..Min(skip + limit, |rows|)]
  }

  function StripAll(rows: seq<Row>): (r: seq<Row>)
    ensures |r| == |rows| && forall i :: 0 <= i < |r| ==> r[i] == Strip(rows[i])
  {
    seq(|rows|, i requires 0 <= i < |rows| => Strip(rows[i]))
  }

  function Joined(s: Store, q: Query): seq<Row> {
    var rows := Match(s.employees, q);
    var rows := Join(rows, s.users, UserOf, PutUser);
    var rows := Join(rows, s.roles, RoleOf, PutRole);
    var rows := Join(rows, s.departments, DepartmentOf, PutDepartment);
    var rows := Join(rows, s.teams, TeamOf, PutTeam);
    Join(rows, s.positions, PositionOf, PutPosition)
  }

  function Searched(rows: seq<Row>, q: Query, fold: char -> char): seq<Row> {
    var rows := if q.status.Some? then MatchStatus(rows, q.status.value) else rows;
    if Term(q) != "" then MatchSearch(rows, Regex.Escape(Term(q)), fold) else rows
  }

  function Pipeline(s: Store, q: Query, fold: char -> char): seq<Row> {
    Sort(Searched(Joined(s, q), q, fold))
  }

  function FindAll(s: Store, q: Query, fold: char -> char): Listing {
    var rows := Pipeline(s, q, fold);
    var page, limit := PageOf(q), LimitOf(q);
    Listing(StripAll(Page(rows, Skip(page, limit), limit)), |rows|, page, limit)
  }
}
