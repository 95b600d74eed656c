/**
 * The waitlist ("whitelist") table: users fetched from the IAM service,
 * searched and paged in the browser, and exported as a CSV file.
 */
module WhitelistTable {
  import opened Common
  import opened Text
  import opened Listing

  /** A waitlisted user; both timestamps are the strings the service returns. */
  datatype WaitlistUser = WaitlistUser(id: string, email: string, createdAt: string, updatedAt: string)

  /**
   * A timestamp as `new Date(s)` sees it in the browser's time zone: its
   * local fields (the month counted from 0), or an invalid date.
   */
  datatype Instant =
    | Moment(year: int, month0: nat, day: nat, hours: nat, minutes: nat, seconds: nat)
    | InvalidDate

  predicate WellFormed(i: Instant) {
    i.Moment? ==> i.month0 < 12 && 1 <= i.day <= 31 && i.hours < 24 && i.minutes < 60 && i.seconds < 60
  }

  /** `String(n).padStart(2, '0')` */
  function Two(n: nat): string {
    PadStart(NatToDecimal(n), 2, '0')
  }

  /** `YYYY-MM-DD HH:MM:SS` from the local fields; an invalid date renders every field as "NaN". */
  function FormatDateForCsv(i: Instant): string {
    match i
    case InvalidDate => "NaN-NaN-NaN NaN:NaN:NaN"
    case Moment(y, mo, d, h, mi, s) =>
      IntToDecimal(y) + DateTail(Two(mo + 1), Two(d), Two(h), Two(mi), Two(s))
  }

  predicate AllDigits(s: string) {
    forall k :: 0 <= k < |s| ==> IsDigit(s[k])
  }

  /** The part after the year: `-MM-DD HH:MM:SS`. */
  function DateTail(mo: string, d: string, h: string, mi: string, s: string): string {
    "-" + mo + "-" + d + " " + h + ":" + mi + ":" + s
  }

  lemma DateLayout(yr: string, mo: string, d: string, h: string, mi: string, s: string)
    requires |mo| == 2 && |d| == 2 && |h| == 2 && |mi| == 2 && |s| == 2
    ensures var r := yr + DateTail(mo, d, h, mi, s);
      var y := |yr|;
      && |r| == y + 15
      && r[..y] == yr
      && r[y] == '-' && r[y + 3] == '-' && r[y + 6] == ' ' && r[y + 9] == ':' && r[y + 12] == ':'
      && r[y + 1..y + 3] == mo && r[y + 4..y + 6] == d && r[y + 7..y + 9] == h
      && r[y + 10..y + 12] == mi && r[y + 13..y + 15] == s
  {
    var t := DateTail(mo, d, h, mi, s);
    var r := yr + t;
    var y := |yr|;
    assert r[y..] == t;
    assert t == ['-'] + mo + ['-'] + d + [' '] + h + [':'] + mi + [':'] + s;
    assert r[y + 1..y + 3] == t[1..3];
    assert r[y + 4..y + 6] == t[4..6];
    assert r[y + 7..y + 9] == t[7..9];
    assert r[y + 10..y + 12] == t[10..12];
    assert r[y + 13..y + 15] == t[13..15];
  }

  /** A two-digit field whose digits read back as `n`. */
  predicate FieldReads(f: string, n: nat) {
    |f| == 2 && AllDigits(f) && DigitsValue(f) == n
  }

  lemma TwoReads(n: nat)
    requires n < 100
    ensures FieldReads(Two(n), n)
  {
    TwoDigitField(n);
  }

  /**
   * The layout of a formatted date: after the year come five two-digit
   * fields, separated by '-', '-', ' ', ':' and ':', that read back as the
   * 1-based month, the day, the hours, the minutes and the seconds.
   */
  lemma FormatDateLayout(i: Instant)
    requires i.Moment? && WellFormed(i)
    ensures var r := FormatDateForCsv(i);
      var y := |IntToDecimal(i.year)|;
      && |r| == y + 15
      && r[..y] == IntToDecimal(i.year)
      && r[y] == '-' && r[y + 3] == '-' && r[y + 6] == ' ' && r[y + 9] == ':' && r[y + 12] == ':'
      && FieldReads(r[y + 1..y + 3], i.month0 + 1)
      && FieldReads(r[y + 4..y + 6], i.day)
      && FieldReads(r[y + 7..y + 9], i.hours)
      && FieldReads(r[y + 10..y + 12], i.minutes)
      && FieldReads(r[y + 13..y + 15], i.seconds)
  {
    var yr := IntToDecimal(i.year);
    var y := |yr|;
    var mo, d, h, mi, s := Two(i.month0 + 1), Two(i.day), Two(i.hours), Two(i.minutes), Two(i.seconds);
    TwoReads(i.month0 + 1);
    TwoReads(i.day);
    TwoReads(i.hours);
    TwoReads(i.minutes);
    TwoReads(i.seconds);
    DateLayout(IntToDecimal(i.year), mo, d, h, mi, s);
  }

  /** The characters a formatted date is made of. */
  predicate DateChars(s: string) {
    forall c :: c in s ==> IsDigit(c) || c in "-: NaN"
  }

  lemma TwoDateChars(n: nat)
    ensures DateChars(Two(n))
  {
    var f := Two(n);
    var d := NatToDecimal(n);
    forall k | 0 <= k < |f|
      ensures IsDigit(f[k])
    {
      if k >= |f| - |d| {
        assert f[k] == f[|f| - |d|..][k - (|f| - |d|)];
      }
    }
  }

  lemma TailDateChars(mo: string, d: string, h: string, mi: string, s: string)
    requires DateChars(mo) && DateChars(d) && DateChars(h) && DateChars(mi) && DateChars(s)
    ensures DateChars(DateTail(mo, d, h, mi, s))
  {
    assert DateChars("-") && DateChars(" ") && DateChars(":");
  }

  lemma YearDateChars(y: int)
    ensures DateChars(IntToDecimal(y))
  {
    if y < 0 {
      assert IntToDecimal(y) == "-" + NatToDecimal(-y);
    }
  }

  /** The characters of a formatted date exclude the line break and the double quote. */
  lemma DateCharsOneLine(s: string)
    requires DateChars(s)
    ensures '\n' !in s && '"' !in s
  {
    assert '\n' !in "-: NaN" && '"' !in "-: NaN";
  }

  /** A formatted date never contains a line break or a double quote. */
  lemma FormatDateIsOneLine(i: Instant)
    ensures DateChars(FormatDateForCsv(i))
    ensures '\n' !in FormatDateForCsv(i) && '"' !in FormatDateForCsv(i)
  {
    match i {
    case InvalidDate =>
      assert DateChars("NaN-NaN-NaN NaN:NaN:NaN");
    case Moment(y, mo, d, h, mi, s) =>
      TwoDateChars(mo + 1);
      TwoDateChars(d);
      TwoDateChars(h);
      TwoDateChars(mi);
      TwoDateChars(s);
      TailDateChars(Two(mo + 1), Two(d), Two(h), Two(mi), Two(s));
      YearDateChars(y);
    }
    DateCharsOneLine(FormatDateForCsv(i));
  }

  // ------------------------------------------------------------ CSV

  /** `"${s}"`: the value between double quotes, with no escaping. */
  function Quote(s: string): string {
    "\"" + s + "\""
  }

  const CsvHeaders: seq<string> := ["Email", "Created At", "Updated At"]

  /** The header line: each header quoted, joined by ", ". */
  function HeaderLine(): string {
    Join([Quote(CsvHeaders[0]), Quote(CsvHeaders[1]), Quote(CsvHeaders[2])], ", ")
  }

  /** One user's line: quoted email, created and updated dates, joined by ", ". */
  function CsvRow(u: WaitlistUser, localTime: string -> Instant): string {
    Join([Quote(u.email), Quote(FormatDateForCsv(localTime(u.createdAt))), Quote(FormatDateForCsv(localTime(u.updatedAt)))], ", ")
  }

  function CsvRows(users: seq<WaitlistUser>, localTime: string -> Instant): (r: seq<string>)
    ensures |r| == |users|
    ensures forall k :: 0 <= k < |users| ==> r[k] == CsvRow(users[k], localTime)
  {
    seq(|users|, k requires 0 <= k < |users| => CsvRow(users[k], localTime))
  }

  /** The whole file: the header line, then one line per user, joined by "\n". */
  function CsvContent(users: seq<WaitlistUser>, localTime: string -> Instant): string {
    Join([HeaderLine()] + CsvRows(users, localTime), "\n")
  }

  lemma NoBreakInJoin(parts: seq<string>, sep: string)
    requires forall k :: 0 <= k < |parts| ==> '\n' !in parts[k]
    requires '\n' !in sep
    ensures '\n' !in Join(parts, sep)
  {
    if |parts| > 1 {
      NoBreakInJoin(parts[1..], sep);
    }
  }

  lemma HeaderIsOneLine()
    ensures '\n' !in HeaderLine()
  {
    var parts := [Quote(CsvHeaders[0]), Quote(CsvHeaders[1]), Quote(CsvHeaders[2])];
    forall k | 0 <= k < 3
      ensures '\n' !in parts[k]
    {
    }
    NoBreakInJoin(parts, ", ");
  }

  lemma RowIsOneLine(u: WaitlistUser, localTime: string -> Instant)
    requires '\n' !in u.email
    ensures '\n' !in CsvRow(u, localTime)
  {
    FormatDateIsOneLine(localTime(u.createdAt));
    FormatDateIsOneLine(localTime(u.updatedAt));
    var parts := [Quote(u.email), Quote(FormatDateForCsv(localTime(u.createdAt))), Quote(FormatDateForCsv(localTime(u.updatedAt)))];
    forall k | 0 <= k < 3
      ensures '\n' !in parts[k]
    {
    }
    NoBreakInJoin(parts, ", ");
  }

  /**
   * When no email holds a line break, splitting the file at "\n" gives back
   * the header line followed by the users' lines in order: the file has one
   * line more than there are users.
   */
  lemma CsvLines(users: seq<WaitlistUser>, localTime: string -> Instant)
    requires forall k :: 0 <= k < |users| ==> '\n' !in users[k].email
    ensures Split(CsvContent(users, localTime), '\n') == [HeaderLine()] + CsvRows(users, localTime)
    ensures |Split(CsvContent(users, localTime), '\n')| == |users| + 1
  {
    LinesAreOneLine(users, localTime);
    SplitJoin([HeaderLine()] + CsvRows(users, localTime), '\n');
  }

  lemma LinesAreOneLine(users: seq<WaitlistUser>, localTime: string -> Instant)
    requires forall k :: 0 <= k < |users| ==> '\n' !in users[k].email
    ensures forall k :: 0 <= k < |users| + 1 ==> '\n' !in ([HeaderLine()] + CsvRows(users, localTime))[k]
  {
    var rows := CsvRows(users, localTime);
    forall k | 0 <= k < |users|
      ensures '\n' !in rows[k]
    {
      RowIsOneLine(users[k], localTime);
    }
    HeaderIsOneLine();
    NoBreakInLines(HeaderLine(), rows);
  }

  lemma NoBreakInLines(head: string, rows: seq<string>)
    requires '\n' !in head
    requires forall k :: 0 <= k < |rows| ==> '\n' !in rows[k]
    ensures forall k :: 0 <= k < |rows| + 1 ==> '\n' !in ([head] + rows)[k]
  {
    assert forall k :: 1 <= k < |rows| + 1 ==> ([head] + rows)[k] == rows[k - 1];
  }

  // ------------------------------------------------------------ list pipeline

  /** `[email, id, createdDate, updatedDate]`, each lowered and joined with spaces; the locale's date rendering is a parameter. */
  function SearchableText(u: WaitlistUser, localeDate: string -> string): string {
    Join([Lower(u.email), Lower(u.id), Lower(localeDate(u.createdAt)), Lower(localeDate(u.updatedAt))], " ")
  }

  function UserText(localeDate: string -> string): WaitlistUser -> string {
    (u: WaitlistUser) => SearchableText(u, localeDate)
  }

  /** A blank search returns the users; otherwise those whose text contains every term. */
  function FilteredUsers(users: seq<WaitlistUser>, searchText: string, localeDate: string -> string): seq<WaitlistUser> {
    Search(users, searchText, UserText(localeDate))
  }

  predicate Kept(u: WaitlistUser, searchText: string, localeDate: string -> string) {
    SearchKeeps(searchText, SearchableText(u, localeDate))
  }

  /** The search keeps, in order, exactly the users whose email, id or dates contain every term. */
  lemma FilteredUsersSpec(users: seq<WaitlistUser>, searchText: string, localeDate: string -> string)
    ensures Trim(searchText) == "" ==> FilteredUsers(users, searchText, localeDate) == users
    ensures IsSubsequence(FilteredUsers(users, searchText, localeDate), users)
    ensures forall u :: u in FilteredUsers(users, searchText, localeDate) <==>
      u in users && Kept(u, searchText, localeDate)
  {
    SearchSpec(users, searchText, UserText(localeDate));
  }

  /** The users of the current page. */
  function PaginatedUsers(users: seq<WaitlistUser>, searchText: string, localeDate: string -> string, current: int, pageSize: int): seq<WaitlistUser> {
    Page(FilteredUsers(users, searchText, localeDate), current, pageSize)
  }

  /** A page holds at most `pageSize` users, all of them matching, and is empty past the end. */
  lemma PaginatedUsersSpec(users: seq<WaitlistUser>, searchText: string, localeDate: string -> string, current: int, pageSize: int)
    requires current >= 1 && pageSize >= 0
    ensures var page := PaginatedUsers(users, searchText, localeDate, current, pageSize);
      && |page| <= pageSize
      && (PageStart(current, pageSize) >= |FilteredUsers(users, searchText, localeDate)| ==> page == [])
      && (forall u :: u in page ==> u in users && Kept(u, searchText, localeDate))
  {
    PageWindow(FilteredUsers(users, searchText, localeDate), current, pageSize);
    PageWithin(FilteredUsers(users, searchText, localeDate), current, pageSize);
    FilteredUsersSpec(users, searchText, localeDate);
  }

  /**
   * The message this view shows for a failure: the response body's non-empty
   * `message`, else the error's own non-empty `message`, else the fallback. A
   * text body has no `message` property, and a thrown string has none either.
   */
  function FailureMessage(err: Thrown, fallback: string): (m: string)
    ensures BodyMessage(err) != "" ==> m == BodyMessage(err)
    ensures err.HttpFailure? && BodyMessage(err) == "" && err.message != "" ==> m == err.message
    ensures err.ThrownText? ==> m == fallback
    ensures fallback != "" ==> m != ""
  {
    match err
    case HttpFailure(data, msg) =>
      if BodyMessage(err) != "" then BodyMessage(err)
      else if msg != "" then msg
      else fallback
    case ThrownText(_) => fallback
  }

  /** `err?.response?.data?.message`, with an absent value read as "": only a JSON body carries one. */
  function BodyMessage(err: Thrown): string {
    if err.HttpFailure? && err.responseData.Some? && err.responseData.value.JsonBody? then err.responseData.value.error.message
    else ""
  }

  const ConfigMissing: string := "IAM configuration not found in environment variables"

  /** The table's state. */
  class WhitelistView {
    var loading: bool
    var exportLoading: bool
    var users: seq<WaitlistUser>
    var searchText: string
    var current: int
    var pageSize: int
    var total: int

    predicate Valid()
      reads this
    {
      current >= 1 && pageSize >= 1
    }

    constructor ()
      ensures Valid()
      ensures !loading && !exportLoading && users == [] && searchText == ""
      ensures current == 1 && pageSize == 15 && total == 0
    {
      loading := false;
      exportLoading := false;
      users := [];
      searchText := "";
      current := 1;
      pageSize := 15;
      total := 0;
    }

    /** The pager's total is the number of users left after the search. */
    function TableTotal(localeDate: string -> string): (n: nat)
      reads this
      ensures n <= |users|
      ensures Trim(searchText) == "" ==> n == |users|
    {
      FilteredUsersSpec(users, searchText, localeDate);
      |FilteredUsers(users, searchText, localeDate)|
    }

    method BeginFetch()
      modifies this`loading
      ensures loading
    {
      loading := true;
    }

    /** The fetch answered: `waitlist || []` becomes the list, and the total its length. */
    method FetchSucceeded(waitlist: Option<seq<WaitlistUser>>)
      modifies this`users, this`total, this`loading
      ensures users == ResponseList(waitlist) && total == |users| && !loading
    {
      users := ResponseList(waitlist);
      total := |users|;
      loading := false;
    }

    /** The fetch failed: the list is emptied and a message raised. */
    method FetchFailed(err: Thrown) returns (toast: string)
      modifies this`users, this`loading
      ensures users == [] && !loading
      ensures toast == FailureMessage(err, "Failed to fetch waitlist users")
    {
      users := [];
      loading := false;
      toast := FailureMessage(err, "Failed to fetch waitlist users");
    }

    /**
     * The export button. A missing IAM URL or key fails at once, before any
     * request, with its own message; otherwise the export request is sent
     * and the button spins.
     */
    method BeginExport(iamUrl: string, iamKey: string) returns (requestSent: bool, toast: Option<string>)
      modifies this`exportLoading
      ensures requestSent <==> iamUrl != "" && iamKey != ""
      ensures !requestSent ==> toast == Some(ConfigMissing) && !exportLoading
      ensures requestSent ==> toast == None && exportLoading
    {
      exportLoading := true;
      if iamUrl == "" || iamKey == "" {
        toast := Some(ConfigMissing);
        requestSent := false;
        exportLoading := false;
        return;
      }
      toast := None;
      requestSent := true;
    }

    /** The export request ended: on success the file content and a count message, on failure a message. */
    method FinishExport(response: Outcome<Option<seq<WaitlistUser>>>, localTime: string -> Instant)
      returns (csv: Option<string>, toast: string)
      modifies this`exportLoading
      ensures !exportLoading
      ensures response.Ok? ==> csv == Some(CsvContent(ResponseList(response.value), localTime))
      ensures response.Ok? ==> toast == "Exported " + NatToDecimal(|ResponseList(response.value)|) + " users to CSV"
      ensures response.Failed? ==> csv == None && toast == FailureMessage(response.err, "Failed to export users")
    {
      match response
      case Ok(waitlist) =>
        exportLoading := false;
        var all := ResponseList(waitlist);
        csv := Some(CsvContent(all, localTime));
        toast := "Exported " + NatToDecimal(|all|) + " users to CSV";
      case Failed(err) =>
        csv := None;
        exportLoading := false;
        toast := FailureMessage(err, "Failed to export users");
    }

    /** Typing in the search box stores the text and goes back to page 1. */
    method SetSearch(text: string)
      requires Valid()
      modifies this`searchText, this`current
      ensures Valid()
      ensures searchText == text && current == 1
    {
      searchText := text;
      current := 1;
    }

    /** The pager moves to a page; a missing page size (0) falls back to 15. */
    method ChangePage(page: int, size: int)
      requires Valid()
      requires page >= 1 && size >= 0
      modifies this`current, this`pageSize
      ensures Valid()
      ensures current == page && pageSize == PageSizeOr(size, 15)
    {
      current := page;
      pageSize := PageSizeOr(size, 15);
    }
  }
}
