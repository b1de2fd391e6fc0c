/** `useUsersData`: the mapping of `/user` records to table rows, with its role and "last login" helpers. */
module Users {
  import opened Wrappers
  import opened Text

  /** A record of the `/user` reply. */
  datatype ApiUser = ApiUser(
    id: int,
    name: string,
    family: Option<string>,
    mobile: string,
    fatherName: Option<string>,
    nationalId: Option<string>,
    status: bool,
    mobileVerifyAt: Option<string>,
    createdAt: string,
    updatedAt: string)

  /** A row of the users table. */
  datatype User = User(
    id: int,
    name: string,
    family: string,
    mobile: string,
    fatherName: Option<string>,
    nationalId: Option<string>,
    status: string,
    mobileVerifyAt: Option<string>,
    createdAt: string,
    updatedAt: string,
    roles: string,
    joinDate: string,
    lastLogin: string)

  const ActiveLabel := "فعال"
  const InactiveLabel := "غیرفعال"
  const AdminRole := "ادمین"
  const OperatorRole := "اپراتور"
  const UserRole := "کاربر"
  const OperatorMobile := "09393136098"
  const NeverText := "هرگز"
  const JustNowText := "همین حالا"
  const HoursAgoSuffix := " ساعت پیش"
  const DaysAgoSuffix := " روز پیش"
  const WeeksAgoSuffix := " هفته پیش"

  const MillisPerHour := 1000 * 60 * 60

  /** The status label: active or inactive. */
  function StatusLabel(status: bool): (r: string)
    ensures r == ActiveLabel <==> status
    ensures r == InactiveLabel <==> !status
  {
    if status then ActiveLabel else InactiveLabel
  }

  /** `determineRole`: id 1 is the admin before the operator's mobile is looked at. */
  function DetermineRole(u: ApiUser): (r: string)
    ensures r == AdminRole <==> u.id == 1
    ensures r == OperatorRole <==> u.id != 1 && u.mobile == OperatorMobile
    ensures r == UserRole <==> u.id != 1 && u.mobile != OperatorMobile
  {
    if u.id == 1 then AdminRole
    else if u.mobile == OperatorMobile then OperatorRole
    else UserRole
  }

  /** `Math.ceil(Math.abs(diff) / 3600000)`: the started hours between the two instants. */
  function DiffHours(diffMs: int): (h: nat)
    ensures var d := if diffMs < 0 then -diffMs else diffMs;
      (h - 1) * MillisPerHour < d <= h * MillisPerHour || (h == 0 && d == 0)
    ensures h == 0 <==> diffMs == 0
  {
    var d := if diffMs < 0 then -diffMs else diffMs;
    (d + MillisPerHour - 1) / MillisPerHour
  }

  /**
   * `formatLastLogin`: "never" for a missing or empty date, else the started hours
   * between now and the verification date (`diffMs`, now minus then) bucketed into
   * hours, days (whole 24-hour units) or weeks (whole 168-hour units).
   */
  function FormatLastLogin(verifyDate: Option<string>, diffMs: int): (r: string)
    ensures (verifyDate.None? || verifyDate.value == "") ==> r == NeverText
    ensures verifyDate.Some? && verifyDate.value != "" && diffMs == 0 ==> r == JustNowText
    ensures verifyDate.Some? && verifyDate.value != "" && 0 < DiffHours(diffMs) < 24 ==>
      r == NatToString(DiffHours(diffMs)) + HoursAgoSuffix
    ensures verifyDate.Some? && verifyDate.value != "" && 24 <= DiffHours(diffMs) < 168 ==>
      r == NatToString(DiffHours(diffMs) / 24) + DaysAgoSuffix && 1 <= DiffHours(diffMs) / 24 <= 6
    ensures verifyDate.Some? && verifyDate.value != "" && 168 <= DiffHours(diffMs) ==>
      r == NatToString(DiffHours(diffMs) / 168) + WeeksAgoSuffix && DiffHours(diffMs) / 168 >= 1
  {
    if verifyDate.None? || verifyDate.value == "" then NeverText
    else
      var h := DiffHours(diffMs);
      if h < 1 then JustNowText
      else if h < 24 then NatToString(h) + HoursAgoSuffix
      else if h < 168 then NatToString(h / 24) + DaysAgoSuffix
      else NatToString(h / 168) + WeeksAgoSuffix
  }

  /** A date in the future is described like one equally far in the past. */
  lemma LastLoginIgnoresDirection(verifyDate: Option<string>, diffMs: int)
    ensures FormatLastLogin(verifyDate, diffMs) == FormatLastLogin(verifyDate, -diffMs)
  {
  }

  /** Hours are rounded up: a single millisecond already reads "1 hour ago", 24 hours "1 day ago". */
  lemma LastLoginBoundaries(verifyDate: string)
    requires verifyDate != ""
    ensures FormatLastLogin(Some(verifyDate), 1) == "1" + HoursAgoSuffix
    ensures FormatLastLogin(Some(verifyDate), 23 * MillisPerHour + 1) == "1" + DaysAgoSuffix
    ensures FormatLastLogin(Some(verifyDate), 168 * MillisPerHour - 1) == "1" + WeeksAgoSuffix
    ensures FormatLastLogin(Some(verifyDate), 167 * MillisPerHour) == "6" + DaysAgoSuffix
  {
    assert DiffHours(1) == 1;
    assert DiffHours(23 * MillisPerHour + 1) == 24;
    assert DiffHours(168 * MillisPerHour - 1) == 168;
    assert DiffHours(167 * MillisPerHour) == 167;
  }

  /** The table row for an API record; `formatDate` and the clock are outside the model. */
  function MapUser(u: ApiUser, formatDate: string -> string, elapsedMs: string -> int): (r: User)
    ensures r.id == u.id && r.name == u.name && r.mobile == u.mobile
    ensures r.fatherName == u.fatherName && r.nationalId == u.nationalId
    ensures r.mobileVerifyAt == u.mobileVerifyAt && r.createdAt == u.createdAt && r.updatedAt == u.updatedAt
    ensures r.family == (if u.family.Some? && u.family.value != "" then u.family.value else "-")
    ensures r.status == StatusLabel(u.status)
    ensures r.roles == DetermineRole(u)
    ensures r.joinDate == formatDate(u.createdAt)
    ensures u.mobileVerifyAt.None? ==> r.lastLogin == NeverText
    ensures u.mobileVerifyAt.Some? ==> r.lastLogin == FormatLastLogin(u.mobileVerifyAt, elapsedMs(u.mobileVerifyAt.value))
  {
    var lastLogin := match u.mobileVerifyAt
      case None => NeverText
      case Some(v) => FormatLastLogin(u.mobileVerifyAt, elapsedMs(v));
    User(
      u.id, u.name,
      if u.family.Some? && u.family.value != "" then u.family.value else "-",
      u.mobile, u.fatherName, u.nationalId,
      StatusLabel(u.status),
      u.mobileVerifyAt, u.createdAt, u.updatedAt,
      DetermineRole(u),
      formatDate(u.createdAt),
      lastLogin)
  }

  /** `response.data.map(...)`: one row per record, in order. */
  function MapUsers(us: seq<ApiUser>, formatDate: string -> string, elapsedMs: string -> int): (r: seq<User>)
    ensures |r| == |us|
    ensures forall i :: 0 <= i < |us| ==> r[i] == MapUser(us[i], formatDate, elapsedMs)
  {
    if us == [] then [] else [MapUser(us[0], formatDate, elapsedMs)] + MapUsers(us[1..], formatDate, elapsedMs)
  }

  /** `usersQuery.data || []`. */
  function UsersOrEmpty(data: Option<seq<User>>): (r: seq<User>)
    ensures data.None? ==> r == []
    ensures data.Some? ==> r == data.value
  {
    data.GetOr([])
  }
}
