/** The report registry of the reports cog (cogs/reports.py): case-id
    allocation, the agreed and blocked user lists, creating, listing and
    deleting reports, and the decision and appeal fields of a report. */
module Reports {
  import opened PyText

  /** The values the modelled code writes into `status`. */
  datatype ReportStatus = UnderReview | Accepted

  /** The values written into `appeal_status`. */
  datatype AppealStatus = AppealUnderReview | AppealAccepted | AppealRejected

  /** One report record; `rejectionReason` is the key that only an appeal
      rejection adds. */
  datatype Report = Report(
    caseId: int, userId: string, reportedBy: string, reason: string,
    timestamp: string, attachment: Option<string>, status: ReportStatus,
    appealed: bool, appeal: Option<string>, appealStatus: Option<AppealStatus>,
    rejectionReason: Option<string>)

  // ------------------------------------------------------------ case ids

  function MaxCaseId(rs: seq<Report>): (m: int)
    requires rs != []
    ensures forall i :: 0 <= i < |rs| ==> rs[i].caseId <= m
    ensures exists i :: 0 <= i < |rs| && rs[i].caseId == m
  {
    if |rs| == 1 then rs[0].caseId
    else
      var m := MaxCaseId(rs[..|rs| - 1]);
      var last := rs[|rs| - 1].caseId;
      assert forall i :: 0 <= i < |rs| - 1 ==> rs[..|rs| - 1][i] == rs[i];
      if last > m then last else m
  }

  /** `get_next_case_id`: 1 for an empty registry, otherwise one more than
      the largest case id. */
  function NextCaseId(rs: seq<Report>): (r: int)
    ensures forall i :: 0 <= i < |rs| ==> rs[i].caseId < r
    ensures rs == [] ==> r == 1
    ensures rs != [] ==> exists i :: 0 <= i < |rs| && rs[i].caseId == r - 1
  {
    if rs == [] then 1 else MaxCaseId(rs) + 1
  }

  // ------------------------------------------------------------ reports

  /** What `report` does for a reporter: refuse a blocked one, warn one who
      has never reported, otherwise ask for confirmation. */
  datatype Gate = Refused | FirstReportWarning | Confirmation

  function ReportGate(agreed: seq<string>, blocked: seq<string>, reporter: string): (g: Gate)
    ensures g == Refused <==> reporter in blocked
    ensures g == FirstReportWarning <==> reporter !in blocked && reporter !in agreed
  {
    if reporter in blocked then Refused
    else if reporter !in agreed then FirstReportWarning
    else Confirmation
  }

  /** The record `create_report` builds. */
  function NewReport(caseId: int, target: string, reporter: string, reason: string,
                     timestamp: string, attachment: Option<string>): Report {
    Report(caseId, target, reporter, reason, timestamp, attachment, UnderReview,
           false, None, None, None)
  }

  /** No two reports share a case id. */
  predicate DistinctIds(rs: seq<Report>) {
    forall i, j :: 0 <= i < j < |rs| ==> rs[i].caseId != rs[j].caseId
  }

  /** `reports_command`'s comprehension: the reports about `uid`, in order. */
  function ReportsAbout(rs: seq<Report>, uid: string): (r: seq<Report>)
    ensures |r| <= |rs|
  {
    if rs == [] then []
    else ReportsAbout(rs[..|rs| - 1], uid) + (if rs[|rs| - 1].userId == uid then [rs[|rs| - 1]] else [])
  }

  predicate AllAbout(rs: seq<Report>, uid: string) {
    forall i :: 0 <= i < |rs| ==> rs[i].userId == uid
  }

  /** The listing keeps exactly the reports about the user: each of them, and
      no other, and splitting the registry splits the listing. */
  lemma {:induction false} ReportsAboutSpec(rs: seq<Report>, uid: string)
    ensures AllAbout(ReportsAbout(rs, uid), uid)
    ensures forall r :: r in rs && r.userId == uid <==> r in ReportsAbout(rs, uid)
  {
    if rs != [] {
      var init := rs[..|rs| - 1];
      ReportsAboutSpec(init, uid);
      assert rs == init + [rs[|rs| - 1]];
    }
  }

  lemma {:induction false} ReportsAboutAppend(a: seq<Report>, b: seq<Report>, uid: string)
    ensures ReportsAbout(a + b, uid) == ReportsAbout(a, uid) + ReportsAbout(b, uid)
    decreases |b|
  {
    if b == [] {
      assert a + b == a;
    } else {
      var b0 := b[..|b| - 1];
      assert (a + b)[..|a + b| - 1] == a + b0;
      ReportsAboutAppend(a, b0, uid);
    }
  }

  datatype ListReply = NoReportsAtAll | NoReportsAbout | Listing(reports: seq<Report>)

  function ListReports(rs: seq<Report>, uid: string): (r: ListReply)
    ensures r.Listing? ==> r.reports != [] && r.reports == ReportsAbout(rs, uid)
  {
    if rs == [] then NoReportsAtAll
    else
      var mine := ReportsAbout(rs, uid);
      if mine == [] then NoReportsAbout else Listing(mine)
  }

  /** The index of the first report with the case id (the `next(...)` of
      the source), or `None`. */
  function FindCase(rs: seq<Report>, caseId: int): (r: Option<nat>)
    ensures r.Some? ==> r.value < |rs| && rs[r.value].caseId == caseId
    ensures r.Some? ==> forall i :: 0 <= i < r.value ==> rs[i].caseId != caseId
    ensures r.None? ==> forall i :: 0 <= i < |rs| ==> rs[i].caseId != caseId
  {
    if rs == [] then None
    else if rs[0].caseId == caseId then Some(0)
    else match FindCase(rs[1..], caseId)
      case None => None
      case Some(k) => Some(k + 1)
  }

  /** `delete_report`: the first report with the case id is removed, or
      `None` ("not found") with nothing changed. */
  function DeleteReport(rs: seq<Report>, caseId: int): (r: Option<seq<Report>>)
    ensures r.None? <==> forall i :: 0 <= i < |rs| ==> rs[i].caseId != caseId
    ensures r.Some? ==> |r.value| == |rs| - 1
  {
    match FindCase(rs, caseId)
    case None => None
    case Some(k) => Some(rs[..k] + rs[k + 1..])
  }

  /** With distinct case ids, deleting a case removes that case and only it. */
  lemma DeleteRemovesCase(rs: seq<Report>, caseId: int)
    requires DistinctIds(rs)
    ensures DeleteReport(rs, caseId).Some? ==>
      var r := DeleteReport(rs, caseId).value;
      && DistinctIds(r)
      && (forall i :: 0 <= i < |r| ==> r[i].caseId != caseId)
      && (forall x :: x in rs && x.caseId != caseId ==> x in r)
  {
    match FindCase(rs, caseId)
    case None =>
    case Some(k) =>
      var r := rs[..k] + rs[k + 1..];
      DropIndex(rs, k);
      forall x | x in rs && x.caseId != caseId ensures x in r {
        var i :| 0 <= i < |rs| && rs[i] == x;
        assert i != k;
      }
  }

  /** Dropping index `k` shifts the later reports down by one and keeps
      every other report. */
  lemma DropIndex(rs: seq<Report>, k: nat)
    requires k < |rs|
    ensures var r := rs[..k] + rs[k + 1..];
      && (forall i :: 0 <= i < |r| ==> r[i] == if i < k then rs[i] else rs[i + 1])
      && (forall i :: 0 <= i < |rs| && i != k ==> rs[i] in r)
  {
    var r := rs[..k] + rs[k + 1..];
    forall i | 0 <= i < |rs| && i != k ensures rs[i] in r {
      if i < k {
        assert r[i] == rs[i];
      } else {
        assert r[i - 1] == rs[i];
      }
    }
  }

  /** Replaces the first report with the case id by `upd` of it. */
  function UpdateCase(rs: seq<Report>, caseId: int, upd: Report -> Report): (r: seq<Report>)
    ensures |r| == |rs|
    ensures FindCase(rs, caseId).None? ==> r == rs
    ensures FindCase(rs, caseId).Some? ==>
      var k := FindCase(rs, caseId).value;
      r == rs[k := upd(rs[k])]
  {
    match FindCase(rs, caseId)
    case None => rs
    case Some(k) => rs[k := upd(rs[k])]
  }

  /** `accept_report`'s update: the status becomes accepted and nothing
      else changes. */
  function MarkAccepted(r: Report): (a: Report)
    ensures a.status == Accepted
    ensures a.(status := r.status) == r
  {
    r.(status := Accepted)
  }

  /** The appeal modal's update: the report is marked appealed, with the
      text, under review; no other field changes. */
  function RecordAppeal(text: string): (f: Report -> Report)
    ensures forall r :: f(r).appealed && f(r).appeal == Some(text) && f(r).appealStatus == Some(AppealUnderReview)
    ensures forall r :: f(r).(appealed := r.appealed, appeal := r.appeal, appealStatus := r.appealStatus) == r
  {
    (r: Report) => r.(appealed := true, appeal := Some(text), appealStatus := Some(AppealUnderReview))
  }

  /** `accept_appeal`'s update: only the appeal status changes. */
  function MarkAppealAccepted(r: Report): (a: Report)
    ensures a.appealStatus == Some(AppealAccepted)
    ensures a.(appealStatus := r.appealStatus) == r
  {
    r.(appealStatus := Some(AppealAccepted))
  }

  /** The rejection modal's update: only the appeal status and the
      rejection reason change. */
  function RejectAppealWith(reason: string): (f: Report -> Report)
    ensures forall r :: f(r).appealStatus == Some(AppealRejected) && f(r).rejectionReason == Some(reason)
    ensures forall r :: f(r).(appealStatus := r.appealStatus, rejectionReason := r.rejectionReason) == r
  {
    (r: Report) => r.(appealStatus := Some(AppealRejected), rejectionReason := Some(reason))
  }

  /** Whether the appeal button opens the appeal form for `requester`. */
  datatype AppealGate = ReportGone | AlreadyAppealed | NotYourReport | OpenAppealForm

  function AppealCheck(rs: seq<Report>, caseId: int, requester: string): (g: AppealGate)
    ensures g == OpenAppealForm <==>
      FindCase(rs, caseId).Some? && !rs[FindCase(rs, caseId).value].appealed
      && rs[FindCase(rs, caseId).value].reportedBy == requester
  {
    match FindCase(rs, caseId)
    case None => ReportGone
    case Some(k) =>
      if rs[k].appealed then AlreadyAppealed
      else if requester != rs[k].reportedBy then NotYourReport
      else OpenAppealForm
  }

  /** The registry as a whole, as the JSON file holds it. */
  datatype Registry = Registry(reports: seq<Report>, usersAgreed: seq<string>, blockedUsers: seq<string>)

  predicate Valid(reg: Registry) {
    DistinctIds(reg.reports) && NoDup(reg.usersAgreed) && NoDup(reg.blockedUsers)
  }

  /** `create_report` followed by `mark_user_as_agreed`. */
  function CreateStep(reg: Registry, target: string, reporter: string, reason: string,
                      timestamp: string, attachment: Option<string>): (r: Registry)
    ensures |r.reports| == |reg.reports| + 1 && r.reports[..|reg.reports|] == reg.reports
    ensures var n := r.reports[|reg.reports|];
      n.userId == target && n.reportedBy == reporter && n.reason == reason && n.status == UnderReview
    ensures reporter in r.usersAgreed && r.blockedUsers == reg.blockedUsers
  {
    var r := NewReport(NextCaseId(reg.reports), target, reporter, reason, timestamp, attachment);
    Registry(reg.reports + [r], AddIfAbsent(reg.usersAgreed, reporter), reg.blockedUsers)
  }

  /** A new report is appended with a fresh case id, under review and not
      appealed; the registry stays valid, and the reporter will not see the
      first-report warning again. */
  lemma CreateStepSpec(reg: Registry, target: string, reporter: string, reason: string,
                       timestamp: string, attachment: Option<string>)
    requires Valid(reg)
    ensures var reg' := CreateStep(reg, target, reporter, reason, timestamp, attachment);
      && Valid(reg')
      && |reg'.reports| == |reg.reports| + 1
      && reg'.reports[..|reg.reports|] == reg.reports
      && (forall i :: 0 <= i < |reg.reports| ==> reg.reports[i].caseId < reg'.reports[|reg.reports|].caseId)
      && reg'.reports[|reg.reports|].status == UnderReview
      && !reg'.reports[|reg.reports|].appealed
      && reg'.reports[|reg.reports|].appeal.None? && reg'.reports[|reg.reports|].appealStatus.None?
      && ReportGate(reg'.usersAgreed, reg'.blockedUsers, reporter) != FirstReportWarning
  {
  }

  /** The decision and appeal updates change only their own fields of the
      one report they address, and keep the case ids. */
  lemma UpdatesTouchOnlyTheirFields(rs: seq<Report>, caseId: int, text: string)
    requires FindCase(rs, caseId).Some?
    ensures var k := FindCase(rs, caseId).value;
      && UpdateCase(rs, caseId, MarkAccepted)[k] == rs[k].(status := Accepted)
      && UpdateCase(rs, caseId, RecordAppeal(text))[k]
           == rs[k].(appealed := true, appeal := Some(text), appealStatus := Some(AppealUnderReview))
      && UpdateCase(rs, caseId, MarkAppealAccepted)[k] == rs[k].(appealStatus := Some(AppealAccepted))
      && UpdateCase(rs, caseId, RejectAppealWith(text))[k]
           == rs[k].(appealStatus := Some(AppealRejected), rejectionReason := Some(text))
      && (forall i :: 0 <= i < |rs| && i != k ==>
            UpdateCase(rs, caseId, MarkAccepted)[i] == rs[i]
            && UpdateCase(rs, caseId, RecordAppeal(text))[i] == rs[i]
            && UpdateCase(rs, caseId, MarkAppealAccepted)[i] == rs[i]
            && UpdateCase(rs, caseId, RejectAppealWith(text))[i] == rs[i])
  {
  }

  /** An update that keeps the case id keeps the registry's ids distinct. */
  lemma UpdateKeepsIds(rs: seq<Report>, caseId: int, upd: Report -> Report)
    requires DistinctIds(rs)
    requires forall r :: upd(r).caseId == r.caseId
    ensures DistinctIds(UpdateCase(rs, caseId, upd))
  {
  }

  /** Once an appeal is recorded, the appeal button refuses every requester. */
  lemma AppealOnlyOnce(rs: seq<Report>, caseId: int, text: string, requester: string)
    requires FindCase(rs, caseId).Some?
    ensures AppealCheck(UpdateCase(rs, caseId, RecordAppeal(text)), caseId, requester) == AlreadyAppealed
  {
    var k := FindCase(rs, caseId).value;
    var rs' := UpdateCase(rs, caseId, RecordAppeal(text));
    assert forall i :: 0 <= i < |rs| ==> rs'[i].caseId == rs[i].caseId;
    FindCaseSameIds(rs, rs', caseId);
  }

  lemma {:induction false} FindCaseSameIds(a: seq<Report>, b: seq<Report>, caseId: int)
    requires |a| == |b| && forall i :: 0 <= i < |a| ==> a[i].caseId == b[i].caseId
    ensures FindCase(a, caseId) == FindCase(b, caseId)
  {
    if a != [] && a[0].caseId != caseId {
      FindCaseSameIds(a[1..], b[1..], caseId);
    }
  }

  // ------------------------------------------------------------- the cog

  datatype AdminReply = NotAdmin | AlreadyInState | Done

  class ReportsCog {
    var reports: seq<Report>
    var usersAgreed: seq<string>
    var blockedUsers: seq<string>

    function State(): Registry
      reads this
    {
      Registry(reports, usersAgreed, blockedUsers)
    }

    /** A registry with no stored file. */
    constructor ()
      ensures State() == Registry([], [], []) && Valid(State())
    {
      reports := [];
      usersAgreed := [];
      blockedUsers := [];
    }

    method MarkUserAsAgreed(uid: string)
      modifies this
      ensures State() == old(State()).(usersAgreed := AddIfAbsent(old(usersAgreed), uid))
    {
      if uid !in usersAgreed {
        usersAgreed := usersAgreed + [uid];
      }
    }

    method BlockUser(uid: string)
      modifies this
      ensures State() == old(State()).(blockedUsers := AddIfAbsent(old(blockedUsers), uid))
    {
      if uid !in blockedUsers {
        blockedUsers := blockedUsers + [uid];
      }
    }

    method UnblockUser(uid: string)
      modifies this
      ensures State() == old(State()).(blockedUsers := RemoveIfPresent(old(blockedUsers), uid))
    {
      if uid in blockedUsers {
        blockedUsers := RemoveFirst(blockedUsers, uid);
      }
    }

    method CreateReport(target: string, reporter: string, reason: string,
                        timestamp: string, attachment: Option<string>)
      modifies this
      ensures State() == CreateStep(old(State()), target, reporter, reason, timestamp, attachment)
    {
      var caseId := NextCaseId(reports);
      reports := reports + [NewReport(caseId, target, reporter, reason, timestamp, attachment)];
      MarkUserAsAgreed(reporter);
    }

    method DeleteCase(caseId: int) returns (found: bool)
      modifies this
      ensures found <==> DeleteReport(old(reports), caseId).Some?
      ensures found ==> State() == old(State()).(reports := DeleteReport(old(reports), caseId).value)
      ensures !found ==> State() == old(State())
    {
      var r := DeleteReport(reports, caseId);
      found := r.Some?;
      if found {
        reports := r.value;
      }
    }

    /** `banreports`; only administrators may use it. */
    method BanReports(isAdmin: bool, uid: string) returns (reply: AdminReply)
      modifies this
      ensures !isAdmin ==> reply == NotAdmin && State() == old(State())
      ensures isAdmin ==> State() == old(State()).(blockedUsers := AddIfAbsent(old(blockedUsers), uid))
      ensures isAdmin ==> (reply == AlreadyInState <==> uid in old(blockedUsers))
    {
      if !isAdmin {
        return NotAdmin;
      }
      if uid in blockedUsers {
        return AlreadyInState;
      }
      BlockUser(uid);
      reply := Done;
    }

    /** `unbanreports`; only administrators may use it. */
    method UnbanReports(isAdmin: bool, uid: string) returns (reply: AdminReply)
      modifies this
      ensures !isAdmin ==> reply == NotAdmin && State() == old(State())
      ensures isAdmin ==> State() == old(State()).(blockedUsers := RemoveIfPresent(old(blockedUsers), uid))
      ensures isAdmin ==> (reply == AlreadyInState <==> uid !in old(blockedUsers))
    {
      if !isAdmin {
        return NotAdmin;
      }
      if uid !in blockedUsers {
        return AlreadyInState;
      }
      UnblockUser(uid);
      reply := Done;
    }

    /** `accept_report`: administrators only; a missing case changes nothing. */
    method AcceptReport(isAdmin: bool, caseId: int)
      modifies this
      ensures !isAdmin ==> State() == old(State())
      ensures isAdmin ==> State() == old(State()).(reports := UpdateCase(old(reports), caseId, MarkAccepted))
    {
      if isAdmin {
        reports := UpdateCase(reports, caseId, MarkAccepted);
      }
    }

    /** `AppealReportModal.on_submit`: the appeal is stored before the
      appeal channel is looked up. */
    method SubmitAppeal(caseId: int, text: string) returns (found: bool)
      modifies this
      ensures found <==> FindCase(old(reports), caseId).Some?
      ensures State() == old(State()).(reports := UpdateCase(old(reports), caseId, RecordAppeal(text)))
    {
      found := FindCase(reports, caseId).Some?;
      reports := UpdateCase(reports, caseId, RecordAppeal(text));
    }

    /** `accept_appeal`: no permission check. */
    method AcceptAppeal(caseId: int)
      modifies this
      ensures State() == old(State()).(reports := UpdateCase(old(reports), caseId, MarkAppealAccepted))
    {
      reports := UpdateCase(reports, caseId, MarkAppealAccepted);
    }

    /** `AppealRejectionModal.on_submit`. */
    method RejectAppeal(caseId: int, reason: string)
      modifies this
      ensures State() == old(State()).(reports := UpdateCase(old(reports), caseId, RejectAppealWith(reason)))
    {
      reports := UpdateCase(reports, caseId, RejectAppealWith(reason));
    }
  }
}
