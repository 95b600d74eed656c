/**
 * The holdings analytics page: a search by user email and date range over
 * the users' token holdings, with a paged table of users.
 */
module AnalyticsHolding {
  import opened Common
  import opened Text
  import opened Listing

  /** The short chain name the holdings table shows; unknown identifiers are shown as they are. */
  function FormatChainName(chain: string): (r: string)
    ensures chain == "base-mainnet" ==> r == "Base"
    ensures chain == "solana-mainnet" ==> r == "Solana"
    ensures chain == "worldchain-mainnet" ==> r == "WLD"
    ensures chain !in {"base-mainnet", "solana-mainnet", "worldchain-mainnet"} ==> r == chain
  {
    match chain
    case "base-mainnet" => "Base"
    case "solana-mainnet" => "Solana"
    case "worldchain-mainnet" => "WLD"
    case _ => chain
  }

  /** An address cell: "-" when empty, short addresses whole, otherwise the first three and last three characters around "...". */
  function FormatAddress(address: string): (r: string)
    ensures address == "" ==> r == "-"
    ensures 0 < |address| <= 6 ==> r == address
    ensures |address| > 6 ==> |r| == 9 && r[..3] == address[..3] && r[3..6] == "..." && r[6..] == address[|address| - 3..]
  {
    if address == "" then "-"
    else if |address| <= 6 then address
    else address[..3] + "..." + address[|address| - 3..]
  }

  /** A shortened address is never longer than 9 characters and keeps both ends of the original. */
  lemma FormatAddressShort(address: string)
    ensures |FormatAddress(address)| <= 9 || FormatAddress(address) == address
    ensures address != "" ==> FormatAddress(address)[..1] == address[..1]
    ensures address != "" ==> FormatAddress(address)[|FormatAddress(address)| - 1] == address[|address| - 1]
  {
  }

  // ---------------------------------------------------------------- email

  /** A character the email pattern's `[^\s@]` accepts. */
  predicate NameChar(c: char) {
    !IsSpace(c) && c != '@'
  }

  predicate AllNameChars(s: string) {
    forall j :: 0 <= j < |s| ==> NameChar(s[j])
  }

  /** The first position of `c` in `s`, if any. */
  function FindChar(s: string, c: char): (r: Option<nat>)
    ensures r.Some? ==> r.value < |s| && s[r.value] == c && forall j :: 0 <= j < r.value ==> s[j] != c
    ensures r.None? ==> forall j :: 0 <= j < |s| ==> s[j] != c
  {
    if s == [] then None
    else if s[0] == c then Some(0)
    else match FindChar(s[1..], c)
      case None => None
      case Some(i) => Some(i + 1)
  }

  /**
   * `/^[^\s@]+@[^\s@]+\.[^\s@]+$/.test(email)`, computed by finding the '@'
   * and then a '.' with at least one character on each side of it.
   */
  function ValidateEmail(email: string): bool {
    match FindChar(email, '@')
    case None => false
    case Some(i) =>
      && 0 < i
      && i + 4 <= |email|
      && AllNameChars(email[..i])
      && AllNameChars(email[i + 1..])
      && FindChar(email[i + 2..|email| - 1], '.').Some?
  }

  /**
   * What the pattern says, position by position: one '@' after a non-empty
   * local part, a '.' in the domain that is neither its first nor its last
   * character, and no white space and no other '@' anywhere.
   */
  predicate EmailShape(email: string) {
    exists i, k :: 0 < i && i + 1 < k < |email| - 1 && email[i] == '@' && email[k] == '.'
      && forall j :: 0 <= j < |email| && j != i ==> NameChar(email[j])
  }

  /** The computed check accepts exactly the emails of the pattern's shape. */
  lemma ValidateEmailIsShape(email: string)
    ensures ValidateEmail(email) <==> EmailShape(email)
  {
    if ValidateEmail(email) {
      var i := FindChar(email, '@').value;
      var d := FindChar(email[i + 2..|email| - 1], '.').value;
      var k := i + 2 + d;
      assert email[k] == '.';
      forall j | 0 <= j < |email| && j != i
        ensures NameChar(email[j])
      {
        if j < i {
          assert email[..i][j] == email[j];
        } else {
          assert email[i + 1..][j - i - 1] == email[j];
        }
      }
    }
    if EmailShape(email) {
      var i, k :| 0 < i && i + 1 < k < |email| - 1 && email[i] == '@' && email[k] == '.'
        && forall j :: 0 <= j < |email| && j != i ==> NameChar(email[j]);
      var f := FindChar(email, '@');
      assert forall j :: 0 <= j < |email| && j != i ==> email[j] != '@';
      assert f.Some? && f.value == i;
      assert email[i + 2..|email| - 1][k - i - 2] == '.';
    }
  }

  /** Blank input is never a valid email. */
  lemma BlankIsNotEmail(email: string)
    requires Trim(email) == ""
    ensures !ValidateEmail(email)
  {
    TrimEmptyIffAllSpace(email);
    if email != [] {
      assert !NameChar(email[0]);
    }
  }

  /** The message the search button sets: required for blank text, invalid for a failed pattern, none for a valid email. */
  function SearchError(value: string): (r: Option<string>)
    ensures r.None? <==> ValidateEmail(value)
    ensures Trim(value) == "" ==> r == Some(EmailRequired)
    ensures Trim(value) != "" && !ValidateEmail(value) ==> r == Some(EmailInvalid)
  {
    if Trim(value) == "" then
      BlankIsNotEmail(value);
      Some(EmailRequired)
    else if !ValidateEmail(value) then Some(EmailInvalid)
    else None
  }

  // ---------------------------------------------------------------- dates

  /** A day picked in a date picker; the form keeps it and sends it as `YYYY-MM-DD`. */
  datatype CalendarDate = CalendarDate(year: int, month: int, day: int)

  /** `dayjs(later).isAfter(dayjs(earlier))` for whole days. */
  predicate IsAfter(later: CalendarDate, earlier: CalendarDate) {
    || later.year > earlier.year
    || (later.year == earlier.year && later.month > earlier.month)
    || (later.year == earlier.year && later.month == earlier.month && later.day > earlier.day)
  }

  /** The date-range guard: a missing date always passes; otherwise the end must be strictly after the start. */
  predicate ValidateDates(startDate: Option<CalendarDate>, endDate: Option<CalendarDate>) {
    startDate.None? || endDate.None? || IsAfter(endDate.value, startDate.value)
  }

  /** The ordering is strict: no day is after itself, and of two different days one is after the other. */
  lemma IsAfterStrict(a: CalendarDate, b: CalendarDate)
    ensures !IsAfter(a, a)
    ensures IsAfter(a, b) ==> !IsAfter(b, a)
    ensures a != b ==> IsAfter(a, b) || IsAfter(b, a)
  {
  }

  /** The search form. */
  datatype HoldingForm = HoldingForm(email: string, startDate: Option<CalendarDate>, endDate: Option<CalendarDate>)

  datatype DateField = StartDate | EndDate

  /**
   * The form after a date picker change: the new day (or none, when
   * cleared) replaces that field, unless both days would then be set with
   * the end not after the start, in which case nothing changes.
   */
  function DateChange(form: HoldingForm, field: DateField, date: Option<CalendarDate>): (r: Option<HoldingForm>)
    ensures r.None? <==> (date.Some? &&
      (if field == StartDate then !ValidateDates(date, form.endDate) else !ValidateDates(form.startDate, date)))
    ensures r.Some? && field == StartDate ==> r.value == form.(startDate := date)
    ensures r.Some? && field == EndDate ==> r.value == form.(endDate := date)
    ensures r.Some? ==> ValidateDates(r.value.startDate, r.value.endDate)
  {
    match field
    case StartDate =>
      if date.Some? && form.endDate.Some? && !ValidateDates(date, form.endDate) then None
      else Some(form.(startDate := date))
    case EndDate =>
      if date.Some? && form.startDate.Some? && !ValidateDates(form.startDate, date) then None
      else Some(form.(endDate := date))
  }

  /** The holdings query runs once an email has been searched or a date is set. */
  function QueryEnabled(searchEmail: string, form: HoldingForm): bool {
    searchEmail != "" || form.startDate.Some? || form.endDate.Some?
  }

  /** The pager's total: the reported page count times the page size, or 0 when no positive count is reported. */
  function TableTotal(totalPages: Option<int>, pageSize: int): (n: int)
    ensures totalPages.None? || totalPages.value == 0 ==> n == 0
    ensures totalPages.Some? && totalPages.value != 0 ==> n == totalPages.value * pageSize
    ensures totalPages.Some? && totalPages.value > 0 && pageSize > 0 ==> n >= pageSize
  {
    if totalPages.Some? && totalPages.value != 0 then totalPages.value * pageSize else 0
  }

  const EmailRequired: string := "Email is required"
  const EmailInvalid: string := "Please enter a valid email address"
  const HoldingFallback: string := "Failed to load holding analytics"

  /** The page's state. */
  class HoldingView {
    var form: HoldingForm
    var searchEmail: string
    var emailError: Option<string>
    var error: Option<ViewError>
    var current: int
    var pageSize: int

    /**
     * What the handlers keep true: the searched email is empty or valid, the
     * date range is ordered, and the pager is on a real page.
     */
    predicate Valid()
      reads this
    {
      && (searchEmail == "" || ValidateEmail(searchEmail))
      && ValidateDates(form.startDate, form.endDate)
      && current >= 1 && pageSize >= 1
    }

    constructor ()
      ensures Valid()
      ensures form == HoldingForm("", None, None) && searchEmail == "" && emailError == None && error == None
      ensures current == 1 && pageSize == 15
    {
      form := HoldingForm("", None, None);
      searchEmail := "";
      emailError := None;
      error := None;
      current := 1;
      pageSize := 15;
    }

    function Enabled(): bool
      reads this
    {
      QueryEnabled(searchEmail, form)
    }

    /** An enabled query always has something valid to search for. */
    lemma EnabledQueryIsMeaningful()
      requires Valid() && Enabled()
      ensures ValidateEmail(searchEmail) || form.startDate.Some? || form.endDate.Some?
    {
    }

    /**
     * Typing in the email box stores the text and clears both errors; the
     * active search is dropped only when the new text is blank.
     */
    method EmailInputChange(value: string)
      requires Valid()
      modifies this`form, this`searchEmail, this`emailError, this`error
      ensures Valid()
      ensures form == old(form).(email := value) && emailError == None && error == None
      ensures Trim(value) == "" ==> searchEmail == ""
      ensures Trim(value) != "" ==> searchEmail == old(searchEmail)
    {
      emailError := None;
      form := form.(email := value);
      if Trim(value) == "" {
        searchEmail := "";
      }
      error := None;
    }

    /**
     * The search button or Enter. Blank text and invalid text each set their
     * message and change nothing else; a valid email becomes the active
     * search and clears the errors.
     */
    method EmailSearch(value: string)
      requires Valid()
      modifies this`form, this`searchEmail, this`emailError, this`error
      ensures Valid()
      ensures emailError == SearchError(value)
      ensures emailError.Some? ==> searchEmail == old(searchEmail) && form == old(form) && error == old(error)
      ensures emailError.None? ==> searchEmail == value && form == old(form).(email := value) && error == None
    {
      var e := SearchError(value);
      emailError := e;
      if e.None? {
        assert ValidateEmail(value);
        form := form.(email := value);
        searchEmail := value;
        error := None;
      }
    }

    /** A date picker change: applied as `DateChange` says and clearing the error, or ignored. */
    method HandleDateChange(field: DateField, date: Option<CalendarDate>)
      requires Valid()
      modifies this`form, this`error
      ensures Valid()
      ensures DateChange(old(form), field, date).None? ==> form == old(form) && error == old(error)
      ensures DateChange(old(form), field, date).Some? ==> form == DateChange(old(form), field, date).value && error == None
    {
      var other := if field == StartDate then form.endDate else form.startDate;
      if date.Some? && other.Some? {
        if field == EndDate && !ValidateDates(other, date) {
          return;
        } else if field == StartDate && !ValidateDates(date, other) {
          return;
        }
      }
      if field == StartDate {
        form := form.(startDate := date);
      } else {
        form := form.(endDate := date);
      }
      error := None;
    }

    /** The pager moves; a missing page size (0) falls back to 10, and the error is cleared. */
    method PageChange(page: int, size: int)
      requires Valid()
      requires page >= 1 && size >= 0
      modifies this`current, this`pageSize, this`error
      ensures Valid()
      ensures current == page && pageSize == PageSizeOr(size, 10) && error == None
    {
      current := page;
      pageSize := PageSizeOr(size, 10);
      error := None;
    }

    /** The holdings query failed: the normalised error is stored, and raised as a toast when it is text. */
    method QueryFailed(err: Thrown) returns (toast: Option<string>)
      modifies this`error
      ensures error == Some(NormalizeError(err, HoldingFallback))
      ensures toast == Toast(NormalizeError(err, HoldingFallback))
    {
      var e := NormalizeError(err, HoldingFallback);
      error := Some(e);
      toast := Toast(e);
    }
  }
}
