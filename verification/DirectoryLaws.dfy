/** What the listing returns, without the pipeline. */
module DirectoryLaws {
  import opened Outcomes
  import Decimal
  import Regex
  import opened Directory

  // ---- The plain description ----

  /** The first document with the id, if there is one. */
  function Resolve<T>(from: seq<Doc<T>>, id: Option<Id>): Option<T> {
    if from == [] || id.None? then None
    else if from[0].id == id.value then Some(from[0].body)
    else Resolve(from[1..], id)
  }

  /** An employee with every reference resolved; a dangling reference resolves to nothing. */
  function View(s: Store, e: Employee): Row {
    Row(e, Resolve(s.users, e.userId), Resolve(s.roles, e.roleId), Resolve(s.departments, e.departmentId),
        Resolve(s.teams, e.teamId), Resolve(s.positions, e.positionId))
  }

  /** Whether the query wants this employee. */
  predicate Wanted(s: Store, q: Query, fold: char -> char, e: Employee) {
    var user := Resolve(s.users, e.userId);
    var term := Term(q);
    && (q.departmentId.Some? ==> e.departmentId == q.departmentId)
    && (q.teamId.Some? ==> e.teamId == q.teamId)
    && (q.status.Some? ==> user.Some? && user.value.status == q.status.value)
    && (term != "" ==>
         || (user.Some? && (|| Regex.Contains(user.value.firstName, term, fold)
                            || Regex.Contains(user.value.lastName, term, fold)
                            || Regex.Contains(user.value.email, term, fold)))
         || Regex.Contains(e.employeeId, term, fold))
  }

  /** The wanted employees in stored order, one row each. */
  function Select(s: Store, q: Query, fold: char -> char, employees: seq<Employee>): seq<Row> {
    if employees == [] then []
    else (if Wanted(s, q, fold, employees[0]) then [View(s, employees[0])] else [])
         + Select(s, q, fold, employees[1..])
  }

  ghost predicate UniqueIds<T(!new)>(from: seq<Doc<T>>) {
    forall i, j :: 0 <= i < j < |from| ==> from[i].id != from[j].id
  }

  /** The primary key of each referenced collection is unique; references may dangle. */
  ghost predicate Keyed(s: Store) {
    UniqueIds(s.users) && UniqueIds(s.roles) && UniqueIds(s.departments) && UniqueIds(s.teams) && UniqueIds(s.positions)
  }

  // ---- Joins keep one row per employee ----

  function ToSeq<T>(x: Option<T>): seq<T> {
    if x.None? then [] else [x.value]
  }

  lemma {:induction false} LookupAbsent<T(!new)>(from: seq<Doc<T>>, id: Option<Id>)
    requires id.Some? ==> forall i :: 0 <= i < |from| ==> from[i].id != id.value
    ensures Lookup(from, id) == []
  {
    if from != [] {
      LookupAbsent(from[1..], id);
    }
  }

  lemma {:induction false} LookupIsResolve<T(!new)>(from: seq<Doc<T>>, id: Option<Id>)
    requires UniqueIds(from)
    ensures Lookup(from, id) == ToSeq(Resolve(from, id))
  {
    if from != [] && id.Some? {
      if from[0].id == id.value {
        LookupAbsent(from[1..], id);
      } else {
        LookupIsResolve(from[1..], id);
      }
    }
  }

  /** A join rewrites each row in place: no row is lost, doubled or moved, whatever dangles. */
  lemma {:induction false} JoinKeepsRows<T(!new)>(rows: seq<Row>, from: seq<Doc<T>>, key: Row -> Option<Id>,
                                                  put: (Row, Option<T>) -> Row)
    requires UniqueIds(from)
    ensures |Join(rows, from, key, put)| == |rows|
    ensures forall i :: 0 <= i < |rows| ==> Join(rows, from, key, put)[i] == put(rows[i], Resolve(from, key(rows[i])))
  {
    if rows != [] {
      LookupIsResolve(from, key(rows[0]));
      JoinKeepsRows(rows[1..], from, key, put);
      assert Unwind(rows[0], Lookup(from, key(rows[0])), put) == [put(rows[0], Resolve(from, key(rows[0])))];
    }
  }

  /** Resolving every row of a list. */
  function Views(s: Store, rows: seq<Row>): (r: seq<Row>)
    ensures |r| == |rows| && forall i :: 0 <= i < |r| ==> r[i] == View(s, rows[i].employee)
  {
    seq(|rows|, i requires 0 <= i < |rows| => View(s, rows[i].employee))
  }

  lemma {:induction false} MatchIsBare(employees: seq<Employee>, q: Query)
    ensures forall i :: 0 <= i < |Match(employees, q)| ==>
      var r := Match(employees, q)[i]; r == Row(r.employee, None, None, None, None, None)
  {
    if employees != [] {
      MatchIsBare(employees[1..], q);
    }
  }

  lemma JoinedIsViews(s: Store, q: Query)
    requires Keyed(s)
    ensures Joined(s, q) == Views(s, Match(s.employees, q))
  {
    var r0 := Match(s.employees, q);
    MatchIsBare(s.employees, q);
    JoinKeepsRows(r0, s.users, UserOf, PutUser);
    var r1 := Join(r0, s.users, UserOf, PutUser);
    JoinKeepsRows(r1, s.roles, RoleOf, PutRole);
    var r2 := Join(r1, s.roles, RoleOf, PutRole);
    JoinKeepsRows(r2, s.departments, DepartmentOf, PutDepartment);
    var r3 := Join(r2, s.departments, DepartmentOf, PutDepartment);
    JoinKeepsRows(r3, s.teams, TeamOf, PutTeam);
    var r4 := Join(r3, s.teams, TeamOf, PutTeam);
    JoinKeepsRows(r4, s.positions, PositionOf, PutPosition);
  }

  // ---- Filters keep exactly the wanted employees ----

  predicate StatusFits(q: Query, row: Row) {
    q.status.Some? ==> HasStatus(row, q.status.value)
  }

  predicate SearchFits(q: Query, fold: char -> char, row: Row) {
    Term(q) != "" ==> Found(row, Regex.Escape(Term(q)), fold)
  }

  /** The rows that pass both later filters. */
  function Fitting(q: Query, fold: char -> char, rows: seq<Row>): seq<Row> {
    if rows == [] then []
    else (if StatusFits(q, rows[0]) && SearchFits(q, fold, rows[0]) then [rows[0]] else [])
         + Fitting(q, fold, rows[1..])
  }

  lemma {:induction false} SearchedIsFitting(rows: seq<Row>, q: Query, fold: char -> char)
    ensures Searched(rows, q, fold) == Fitting(q, fold, rows)
  {
    if rows != [] {
      SearchedIsFitting(rows[1..], q, fold);
      var rest := if q.status.Some? then MatchStatus(rows[1..], q.status.value) else rows[1..];
      var kept := if q.status.Some? then MatchStatus(rows, q.status.value) else rows;
      if StatusFits(q, rows[0]) {
        assert kept == [rows[0]] + rest;
        assert kept[1..] == rest;
      } else {
        assert kept == rest;
      }
    }
  }

  lemma WantedMeansFitting(s: Store, q: Query, fold: char -> char, e: Employee)
    ensures Wanted(s, q, fold, e) <==> InUnit(q, e) && StatusFits(q, View(s, e)) && SearchFits(q, fold, View(s, e))
  {
    var term, user := Term(q), Resolve(s.users, e.userId);
    Regex.SearchIsContainment(term, e.employeeId, fold);
    if user.Some? {
      Regex.SearchIsContainment(term, user.value.firstName, fold);
      Regex.SearchIsContainment(term, user.value.lastName, fold);
      Regex.SearchIsContainment(term, user.value.email, fold);
    }
  }

  lemma {:induction false} FittingIsSelect(s: Store, q: Query, fold: char -> char, employees: seq<Employee>)
    ensures Fitting(q, fold, Views(s, Match(employees, q))) == Select(s, q, fold, employees)
  {
    if employees != [] {
      var e, rest := employees[0], Match(employees[1..], q);
      FittingIsSelect(s, q, fold, employees[1..]);
      WantedMeansFitting(s, q, fold, e);
      if InUnit(q, e) {
        assert Views(s, Match(employees, q)) == [View(s, e)] + Views(s, rest);
        assert ([View(s, e)] + Views(s, rest))[1..] == Views(s, rest);
      } else {
        assert Match(employees, q) == rest;
      }
    }
  }

  /** The five joins and three filters together: each wanted employee once, fully resolved. */
  lemma PipelineIsSortedSelection(s: Store, q: Query, fold: char -> char)
    requires Keyed(s)
    ensures Pipeline(s, q, fold) == Sort(Select(s, q, fold, s.employees))
  {
    JoinedIsViews(s, q);
    SearchedIsFitting(Joined(s, q), q, fold);
    FittingIsSelect(s, q, fold, s.employees);
  }

  // ---- Sorting ----

  ghost predicate NewestFirst(rows: seq<Row>) {
    forall i, j :: 0 <= i <= j < |rows| ==> rows[i].employee.createdAt >= rows[j].employee.createdAt
  }

  /** The rows created at one instant, in order. */
  function CreatedAt(rows: seq<Row>, at: int): seq<Row> {
    if rows == [] then []
    else (if rows[0].employee.createdAt == at then [rows[0]] else []) + CreatedAt(rows[1..], at)
  }

  lemma {:induction false} InsertKeepsAll(row: Row, sorted: seq<Row>)
    ensures multiset(Insert(row, sorted)) == multiset{row} + multiset(sorted)
  {
    if sorted != [] && row.employee.createdAt < sorted[0].employee.createdAt {
      InsertKeepsAll(row, sorted[1..]);
      assert sorted == [sorted[0]] + sorted[1..];
    }
  }

  lemma {:induction false} InsertSorts(row: Row, sorted: seq<Row>)
    requires NewestFirst(sorted)
    ensures NewestFirst(Insert(row, sorted))
  {
    if sorted != [] && row.employee.createdAt < sorted[0].employee.createdAt {
      InsertSorts(row, sorted[1..]);
      InsertKeepsAll(row, sorted[1..]);
      var t := Insert(row, sorted[1..]);
      forall i | 0 <= i < |t| ensures t[i].employee.createdAt <= sorted[0].employee.createdAt {
        assert t[i] in multiset(t);
        assert t[i] == row || t[i] in sorted[1..];
      }
    }
  }

  lemma {:induction false} InsertIsStable(row: Row, sorted: seq<Row>, at: int)
    ensures CreatedAt(Insert(row, sorted), at)
         == (if row.employee.createdAt == at then [row] else []) + CreatedAt(sorted, at)
  {
    if sorted == [] || row.employee.createdAt >= sorted[0].employee.createdAt {
      assert ([row] + sorted)[1..] == sorted;
    } else {
      InsertIsStable(row, sorted[1..], at);
      var t := Insert(row, sorted[1..]);
      assert Insert(row, sorted)[1..] == t;
      if row.employee.createdAt == at {
        assert CreatedAt(sorted, at) == CreatedAt(sorted[1..], at);
      }
    }
  }

  /** The sort is by creation time, newest first; it is stable and loses nothing. */
  lemma {:induction false} SortIsStable(rows: seq<Row>, at: int)
    ensures NewestFirst(Sort(rows))
    ensures multiset(Sort(rows)) == multiset(rows)
    ensures CreatedAt(Sort(rows), at) == CreatedAt(rows, at)
  {
    if rows != [] {
      SortIsStable(rows[1..], at);
      InsertSorts(rows[0], Sort(rows[1..]));
      InsertKeepsAll(rows[0], Sort(rows[1..]));
      InsertIsStable(rows[0], Sort(rows[1..]), at);
      assert rows == [rows[0]] + rows[1..];
    }
  }

  // ---- Pages ----

  /** What is shown of a row: everything but the password's hash. */
  predicate Shown(shown: Row, row: Row) {
    && shown.employee == row.employee && shown.role == row.role && shown.department == row.department
    && shown.team == row.team && shown.position == row.position
    && shown.user.Some? == row.user.Some?
    && (row.user.Some? ==>
         && shown.user.value.firstName == row.user.value.firstName && shown.user.value.lastName == row.user.value.lastName
         && shown.user.value.email == row.user.value.email && shown.user.value.status == row.user.value.status
         && shown.user.value.passwordHash == None)
  }

  ghost predicate AllShown(shown: seq<Row>, rows: seq<Row>) {
    |shown| == |rows| && forall i :: 0 <= i < |rows| ==> Shown(shown[i], rows[i])
  }

  /** Page `page` of these rows, `limit` rows a page, and fewer on the last. */
  ghost predicate IsPage(data: seq<Row>, all: seq<Row>, page: int, limit: int) {
    && page >= 1 && limit >= 1
    && var from := (page - 1) * limit;
       && |data| == (if |all| - from <= 0 then 0 else if |all| - from < limit then |all| - from else limit)
       && forall i :: 0 <= i < |data| ==> from + i < |all| && Shown(data[i], all[from + i])
  }

  lemma StripShows(row: Row)
    ensures Shown(Strip(row), row)
  {
  }

  lemma PageIsPage(all: seq<Row>, page: int, limit: int)
    requires page >= 1 && limit >= 1
    ensures IsPage(StripAll(Page(all, Skip(page, limit), limit)), all, page, limit)
  {
    var from := (page - 1) * limit;
    var data := StripAll(Page(all, Skip(page, limit), limit));
    assert Skip(page, limit) == from;
    forall i | 0 <= i < |data| ensures from + i < |all| && Shown(data[i], all[from + i]) {
      StripShows(all[from + i]);
    }
  }

  /** The data are that page of the sorted selection, shown without password hashes; the total is its length. */
  lemma FindAllIsSlice(s: Store, q: Query, fold: char -> char)
    requires Keyed(s)
    ensures var all := Sort(Select(s, q, fold, s.employees));
            var l := FindAll(s, q, fold);
            l.total == |all| && IsPage(l.data, all, l.page, l.limit) && l.page == PageOf(q) && l.limit == LimitOf(q)
  {
    PipelineIsSortedSelection(s, q, fold);
    PageIsPage(Sort(Select(s, q, fold, s.employees)), PageOf(q), LimitOf(q));
  }

  // ---- What is typed into the query ----

  /** White space and line ends, sections 12.2 and 12.3 of ECMA-262. */
  predicate White(c: char) {
    || 9 <= c as int <= 13 || c == ' ' || c as int == 0xA0 || c as int == 0x1680 || 0x2000 <= c as int <= 0x200A
    || c as int == 0x2028 || c as int == 0x2029 || c as int == 0x202F || c as int == 0x205F
    || c as int == 0x3000 || c as int == 0xFEFF
  }

  predicate AllWhite(s: string) {
    forall i :: 0 <= i < |s| ==> White(s[i])
  }

  /** No white space at either end. */
  predicate Trimmed(s: string) {
    s != "" ==> !White(s[0]) && !White(s[|s| - 1])
  }

  lemma SpaceIsWhite(c: char)
    ensures IsSpace(c) <==> White(c)
  {
  }

  lemma {:induction false} TrimStartSkips(pre: string, s: string)
    requires AllWhite(pre) && (s != "" ==> !White(s[0]))
    ensures TrimStart(pre + s) == s
  {
    if pre == "" {
      assert pre + s == s;
      if s != "" {
        SpaceIsWhite(s[0]);
      }
    } else {
      SpaceIsWhite(pre[0]);
      TrimStartSkips(pre[1..], s);
      assert (pre + s)[1..] == pre[1..] + s;
    }
  }

  lemma TrimEndStep(s: string)
    requires s != "" && White(s[|s| - 1])
    ensures TrimEnd(s) == TrimEnd(s[..|s| - 1])
  {
    SpaceIsWhite(s[|s| - 1]);
  }

  lemma {:induction false} TrimEndSkips(s: string, post: string)
    requires AllWhite(post) && (s != "" ==> !White(s[|s| - 1]))
    ensures TrimEnd(s + post) == s
  {
    if post == "" {
      assert s + post == s;
      if s != "" {
        SpaceIsWhite(s[|s| - 1]);
      }
    } else {
      TrimEndSkips(s, post[..|post| - 1]);
      TrimEndStep(s + post);
      assert (s + post)[..|s + post| - 1] == s + post[..|post| - 1];
    }
  }

  /** White space around a search text counts for nothing. */
  lemma TrimGives(pre: string, core: string, post: string)
    requires AllWhite(pre) && AllWhite(post) && Trimmed(core)
    ensures Trim(pre + core + post) == core
  {
    if core == "" {
      assert pre + core + post == (pre + post) + "";
      TrimStartSkips(pre + post, "");
    } else {
      assert pre + core + post == pre + (core + post);
      TrimStartSkips(pre, core + post);
      TrimEndSkips(core, post);
    }
  }

  /** A field of the employee or of the account contains the text, up to case. */
  predicate Mentions(s: Store, e: Employee, text: string, fold: char -> char) {
    var user := Resolve(s.users, e.userId);
    || Regex.Contains(e.employeeId, text, fold)
    || (user.Some? && (|| Regex.Contains(user.value.firstName, text, fold)
                       || Regex.Contains(user.value.lastName, text, fold)
                       || Regex.Contains(user.value.email, text, fold)))
  }

  /**
   Searching for a text, with white space around it or not, wants exactly the employees of that unit and
   status that mention it; searching for nothing but white space, or not searching, wants them all.
   */
  lemma WantedExactly(s: Store, q: Query, fold: char -> char, e: Employee, pre: string, core: string, post: string)
    requires AllWhite(pre) && AllWhite(post) && Trimmed(core)
    requires q.search == Some(pre + core + post) || (q.search == None && core == "")
    ensures Wanted(s, q, fold, e) <==>
      && (q.departmentId.Some? ==> e.departmentId == q.departmentId)
      && (q.teamId.Some? ==> e.teamId == q.teamId)
      && (q.status.Some? ==> Resolve(s.users, e.userId).Some? && Resolve(s.users, e.userId).value.status == q.status.value)
      && (core != "" ==> Mentions(s, e, core, fold))
  {
    TrimGives(pre, core, post);
  }

  lemma {:induction false} DigitPrefixStops(d: string, rest: string)
    requires Decimal.AllDigits(d) && (rest != "" ==> !Decimal.IsDigit(rest[0]))
    ensures DigitPrefix(d + rest) == d
  {
    if d == "" {
      assert d + rest == rest;
    } else {
      DigitPrefixStops(d[1..], rest);
      assert (d + rest)[1..] == d[1..] + rest;
    }
  }

  lemma UnsignedReads(d: string, rest: string)
    requires Decimal.AllDigits(d) && d != "" && (rest != "" ==> !Decimal.IsDigit(rest[0]))
    ensures (d + rest)[0] == d[0] && TrimStart(d + rest) == d + rest && DigitPrefix(d + rest) == d
  {
    assert Decimal.IsDigit(d[0]);
    DigitPrefixStops(d, rest);
  }

  lemma SignedReads(sign: char, d: string, rest: string)
    requires sign == '-' || sign == '+'
    requires Decimal.AllDigits(d) && d != "" && (rest != "" ==> !Decimal.IsDigit(rest[0]))
    ensures ParseInt([sign] + d + rest) == Some(if sign == '-' then 0 - (Decimal.Value(d) as int) else Decimal.Value(d))
  {
    var t := [sign] + d + rest;
    assert t[1..] == d + rest;
    DigitPrefixStops(d, rest);
  }

  lemma {:induction false} ParseIntSkips(pre: string, s: string)
    requires AllWhite(pre) && s != "" && !White(s[0])
    ensures ParseInt(pre + s) == ParseInt(s)
  {
    TrimStartSkips(pre, s);
    TrimStartSkips("", s);
    assert "" + s == s;
  }

  lemma PlainReads(n: nat, rest: string)
    requires rest != "" ==> !Decimal.IsDigit(rest[0])
    ensures ParseInt(Decimal.ToString(n) + rest) == Some(n)
  {
    UnsignedReads(Decimal.ToString(n), rest);
    Decimal.ToStringValue(n);
  }

  /** A number is read past white space and up to the first character that is no digit, with its sign. */
  lemma ParseIntReads(pre: string, n: nat, rest: string)
    requires AllWhite(pre) && (rest != "" ==> !Decimal.IsDigit(rest[0]))
    ensures ParseInt(pre + (Decimal.ToString(n) + rest)) == Some(n)
    ensures ParseInt(pre + (['+'] + Decimal.ToString(n) + rest)) == Some(n)
    ensures ParseInt(pre + (['-'] + Decimal.ToString(n) + rest)) == Some(0 - (n as int))
  {
    var d := Decimal.ToString(n);
    assert Decimal.IsDigit(d[0]) && (d + rest)[0] == d[0];
    Decimal.ToStringValue(n);
    PlainReads(n, rest);
    SignedReads('+', d, rest);
    SignedReads('-', d, rest);
    ParseIntSkips(pre, d + rest);
    ParseIntSkips(pre, ['+'] + d + rest);
    ParseIntSkips(pre, ['-'] + d + rest);
  }

  /** A text that begins with no digit and no sign is no number. */
  lemma ParseIntFails(pre: string, rest: string)
    requires AllWhite(pre)
    requires rest != "" ==> !Decimal.IsDigit(rest[0]) && !White(rest[0]) && rest[0] != '-' && rest[0] != '+'
    ensures ParseInt(pre + rest) == None
  {
    TrimStartSkips(pre, rest);
    DigitPrefixStops("", rest);
    assert "" + rest == rest;
  }

  /** Asking for page n in plain decimal gives page n. */
  lemma ParseIntOfToString(n: nat)
    ensures ParseInt(Decimal.ToString(n)) == Some(n)
  {
    PlainReads(n, "");
    assert Decimal.ToString(n) + "" == Decimal.ToString(n);
  }

  lemma NegativeReads(n: nat)
    ensures ParseInt(['-'] + Decimal.ToString(n)) == Some(0 - (n as int))
  {
    SignedReads('-', Decimal.ToString(n), "");
    Decimal.ToStringValue(n);
    assert ['-'] + Decimal.ToString(n) + "" == ['-'] + Decimal.ToString(n);
  }

  lemma DefaultsRead()
    ensures ParseInt("1") == Some(1) && ParseInt("20") == Some(20)
  {
    assert Decimal.ToString(1) == "1";
    assert Decimal.ToString(20) == Decimal.ToString(2) + ['0'] == "20";
    ParseIntOfToString(1);
    ParseIntOfToString(20);
  }

  /** Page n is page n, and the first for anything that is no positive number. */
  lemma PageIs(q: Query, n: nat)
    ensures q.page == Some(Decimal.ToString(n)) ==> PageOf(q) == if n == 0 then 1 else n
    ensures q.page == Some(['-'] + Decimal.ToString(n)) || q.page == None || q.page == Some("") ==> PageOf(q) == 1
    ensures q.page.Some? && ParseInt(q.page.value) == None ==> PageOf(q) == 1
  {
    ParseIntOfToString(n);
    NegativeReads(n);
    DefaultsRead();
  }

  /** A limit of 1 to 100 is kept, a higher one is 100, and anything that is no positive number is 20. */
  lemma LimitIs(q: Query, n: nat)
    ensures q.limit == Some(Decimal.ToString(n)) ==> LimitOf(q) == if n == 0 then 20 else if n <= 100 then n else 100
    ensures q.limit == Some(['-'] + Decimal.ToString(n)) || q.limit == None || q.limit == Some("") ==> LimitOf(q) == 20
    ensures q.limit.Some? && ParseInt(q.limit.value) == None ==> LimitOf(q) == 20
  {
    ParseIntOfToString(n);
    NegativeReads(n);
    DefaultsRead();
  }

  // ---- All pages ----

  function AskFor(q: Query, n: nat): Query {
    q.(page := Some(Decimal.ToString(n)))
  }

  function Concatenated(pages: nat -> seq<Row>, n: nat): seq<Row> {
    if n == 0 then [] else Concatenated(pages, n - 1) + pages(n)
  }

  function PageData(s: Store, q: Query, fold: char -> char, n: nat): seq<Row> {
    FindAll(s, AskFor(q, n), fold).data
  }

  function Pages(s: Store, q: Query, fold: char -> char): nat -> seq<Row> {
    (n: nat) => PageData(s, q, fold, n)
  }

  /** The data of pages 1..n, one after the other. */
  function PagesUpTo(s: Store, q: Query, fold: char -> char, n: nat): seq<Row> {
    Concatenated(Pages(s, q, fold), n)
  }

  lemma {:induction false} SelectIgnoresPage(s: Store, q: Query, q': Query, fold: char -> char, employees: seq<Employee>)
    requires q' == q.(page := q'.page)
    ensures Select(s, q', fold, employees) == Select(s, q, fold, employees)
  {
    if employees != [] {
      SelectIgnoresPage(s, q, q', fold, employees[1..]);
    }
  }

  /** What the first n pages hold. */
  function FirstPages(all: seq<Row>, n: nat, limit: nat): seq<Row> {
    all[..Min(n * limit, |all|)]
  }

  lemma AppendPage(all: seq<Row>, n: nat, limit: nat, before: seq<Row>, page: seq<Row>)
    requires n >= 1 && limit >= 1
    requires before == StripAll(FirstPages(all, n - 1, limit))
    requires page == StripAll(Page(all, Skip(n, limit), limit))
    ensures before + page == StripAll(FirstPages(all, n, limit))
  {
  }

  lemma {:induction false} PagesArePrefix(pages: nat -> seq<Row>, n: nat, all: seq<Row>, limit: nat)
    requires limit >= 1 && forall k :: 1 <= k <= n ==> pages(k) == StripAll(Page(all, Skip(k, limit), limit))
    ensures Concatenated(pages, n) == StripAll(FirstPages(all, n, limit))
  {
    if n > 0 {
      PagesArePrefix(pages, n - 1, all, limit);
      AppendPage(all, n, limit, Concatenated(pages, n - 1), pages(n));
    }
  }

  lemma DataIsSlice(s: Store, q: Query, fold: char -> char)
    requires Keyed(s)
    ensures var all := Sort(Select(s, q, fold, s.employees));
            FindAll(s, q, fold).data == StripAll(Page(all, Skip(PageOf(q), LimitOf(q)), LimitOf(q)))
  {
    PipelineIsSortedSelection(s, q, fold);
  }

  lemma PageIsAsked(s: Store, q: Query, fold: char -> char, n: nat, all: seq<Row>, limit: nat)
    requires Keyed(s) && n >= 1 && all == Sort(Select(s, q, fold, s.employees)) && limit == LimitOf(q)
    ensures PageData(s, q, fold, n) == StripAll(Page(all, Skip(n, limit), limit))
  {
    DataIsSlice(s, AskFor(q, n), fold);
    ParseIntOfToString(n);
    SelectIgnoresPage(s, q, AskFor(q, n), fold, s.employees);
  }

  lemma PagesAreAsked(s: Store, q: Query, fold: char -> char, n: nat, all: seq<Row>, limit: nat)
    requires Keyed(s) && all == Sort(Select(s, q, fold, s.employees)) && limit == LimitOf(q)
    ensures PagesUpTo(s, q, fold, n) == StripAll(FirstPages(all, n, limit))
  {
    forall k: nat | 1 <= k <= n ensures Pages(s, q, fold)(k) == StripAll(Page(all, Skip(k, limit), limit)) {
      PageIsAsked(s, q, fold, k, all, limit);
    }
    PagesArePrefix(Pages(s, q, fold), n, all, limit);
  }

  /** How many pages the reported total needs. */
  function PageCount(total: nat, limit: int): (n: nat)
    requires limit >= 1
  {
    (total + limit - 1) / limit
  }

  lemma PagesCover(total: nat, limit: int)
    requires limit >= 1
    ensures PageCount(total, limit) * limit >= total
  {
  }

  /** Reading pages 1 to ceil(total / limit) shows every wanted employee exactly once, in order. */
  lemma PagesAreEverything(s: Store, q: Query, fold: char -> char)
    requires Keyed(s)
    ensures var l := FindAll(s, q, fold);
            AllShown(PagesUpTo(s, q, fold, PageCount(l.total, l.limit)), Sort(Select(s, q, fold, s.employees)))
  {
    FindAllIsSlice(s, q, fold);
    var all := Sort(Select(s, q, fold, s.employees));
    var n := PageCount(|all|, LimitOf(q));
    PagesAreAsked(s, q, fold, n, all, LimitOf(q));
    PagesCover(|all|, LimitOf(q));
    assert all[..|all|] == all;
    forall i | 0 <= i < |all| ensures Shown(StripAll(all)[i], all[i]) {
      StripShows(all[i]);
    }
  }
}
