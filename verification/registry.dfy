/** The session's case registry: the list of cases and the id counter the
    dashboard keeps in its session state, with the operations its buttons and
    widgets perform on them. Widget values, random draws and clock readings
    are parameters. */
module CaseRegistry {
  import opened Wrappers
  import opened Text
  import opened Cases
  import opened Query

  /** The counter's value when the session starts. */
  const FirstCaseNumber: nat := 1000

  /** How many cases one press of "Simulate New Case Stream" adds. */
  const LiveStreamLength: nat := 3

  /** Which button created a case: its id prefix tells them apart. */
  datatype Origin = Generated | Live

  function Prefix(o: Origin): string
  {
    match o
    case Generated => "CASE-"
    case Live => "LIVE-"
  }

  /** `f"CASE-{counter}"` or `f"LIVE-{counter}"`. */
  function CaseId(o: Origin, n: nat): (r: string)
    ensures |r| > 5 && r[..5] == Prefix(o)
    ensures r[5..] == Decimal(n)
    ensures forall i :: 5 <= i < |r| ==> '0' <= r[i] <= '9'
  {
    Prefix(o) + Decimal(n)
  }

  /** An id determines both the button that made the case and the counter value. */
  lemma CaseIdInjective(o1: Origin, n1: nat, o2: Origin, n2: nat)
    requires CaseId(o1, n1) == CaseId(o2, n2)
    ensures o1 == o2 && n1 == n2
  {
    var s1, s2 := CaseId(o1, n1), CaseId(o2, n2);
    assert |Prefix(o1)| == |Prefix(o2)| == 5;
    assert s1[..5] == Prefix(o1) && s2[..5] == Prefix(o2);
    assert s1[5..] == Decimal(n1) && s2[5..] == Decimal(n2);
    DecimalInjective(n1, n2);
  }

  /** The id carries the counter value n, with either prefix. */
  predicate HasNumber(id: string, n: nat)
  {
    id == CaseId(Generated, n) || id == CaseId(Live, n)
  }

  /** Every case is consistent and the i-th case carries the counter value
      FirstCaseNumber + i: ids go up by one in creation order. */
  ghost predicate WellNumbered(cs: seq<AICase>)
  {
    forall i :: 0 <= i < |cs| ==> Consistent(cs[i]) && HasNumber(cs[i].id, FirstCaseNumber + i)
  }

  /** No two cases share an id. */
  lemma IdsDistinct(cs: seq<AICase>)
    requires WellNumbered(cs)
    ensures forall i, j :: 0 <= i < |cs| && 0 <= j < |cs| && cs[i].id == cs[j].id ==> i == j
  {
    forall i, j | 0 <= i < |cs| && 0 <= j < |cs| && cs[i].id == cs[j].id
      ensures i == j
    {
      var oi := if cs[i].id == CaseId(Generated, FirstCaseNumber + i) then Generated else Live;
      var oj := if cs[j].id == CaseId(Generated, FirstCaseNumber + j) then Generated else Live;
      CaseIdInjective(oi, FirstCaseNumber + i, oj, FirstCaseNumber + j);
    }
  }

  /** Lookup by id finds the only case with that id. */
  lemma FindUnique(cs: seq<AICase>, id: string)
    requires WellNumbered(cs)
    ensures Find(cs, id).Some? ==> forall j :: 0 <= j < |cs| && cs[j].id == id ==> j == Find(cs, id).value
  {
    IdsDistinct(cs);
  }

  /** Different counter values give different ids, whatever the prefixes. */
  lemma DistinctNumbersDistinctIds(o1: Origin, n1: nat, o2: Origin, n2: nat)
    requires n1 != n2
    ensures CaseId(o1, n1) != CaseId(o2, n2)
  {
    if CaseId(o1, n1) == CaseId(o2, n2) {
      CaseIdInjective(o1, n1, o2, n2);
    }
  }

  /** The id the counter hands out next belongs to no case yet. */
  lemma {:induction false} NextIdUnused(cs: seq<AICase>, o: Origin)
    requires WellNumbered(cs)
    ensures Find(cs, CaseId(o, FirstCaseNumber + |cs|)).None?
  {
    var next := CaseId(o, FirstCaseNumber + |cs|);
    forall j | 0 <= j < |cs| ensures cs[j].id != next {
      assert HasNumber(cs[j].id, FirstCaseNumber + j);
      DistinctNumbersDistinctIds(Generated, FirstCaseNumber + j, o, FirstCaseNumber + |cs|);
      DistinctNumbersDistinctIds(Live, FirstCaseNumber + j, o, FirstCaseNumber + |cs|);
    }
  }

  lemma ReplaceKeepsNumbering(cs: seq<AICase>, i: nat, c: AICase)
    requires WellNumbered(cs) && i < |cs|
    requires c.id == cs[i].id && Consistent(c)
    ensures WellNumbered(cs[i := c])
  {
  }

  lemma AppendKeepsNumbering(cs: seq<AICase>, c: AICase)
    requires WellNumbered(cs)
    requires Consistent(c) && HasNumber(c.id, FirstCaseNumber + |cs|)
    ensures WellNumbered(cs + [c])
  {
    forall i | 0 <= i < |cs| + 1
      ensures Consistent((cs + [c])[i]) && HasNumber((cs + [c])[i].id, FirstCaseNumber + i)
    {
      if i < |cs| {
        assert (cs + [c])[i] == cs[i];
      }
    }
  }

  /** The random choices behind one streamed case (the chosen sample and the
      two scores), and the clock at that moment. */
  datatype Draw = Draw(template: Template, severityScore: int, affectedUsers: int, now: nat)

  predicate DrawOk(d: Draw)
  {
    UsableSample(d.template) &&
    MinSeverity <= d.severityScore <= MaxSeverity &&
    MinAffectedUsers <= d.affectedUsers <= MaxAffectedUsers
  }

  /** The case the live stream builds from a draw when the counter is n. */
  function LiveCase(d: Draw, n: nat): (c: AICase)
    requires DrawOk(d)
    ensures c.id == CaseId(Live, n) && c.reportedBy == "Live Stream"
    ensures c.title == "[LIVE] " + d.template.title
    ensures c.description == d.template.description && c.category == d.template.category
    ensures c.priority == d.template.priority && c.platform == d.template.platform
    ensures c.severityScore == d.severityScore && c.affectedUsers == d.affectedUsers
    ensures c.status == Open && c.createdAt == c.updatedAt == d.now
    ensures Consistent(c)
  {
    var t := d.template;
    NewCase(CaseId(Live, n), "[LIVE] " + t.title, t.description, t.category, t.priority,
            "Live Stream", t.platform, d.now, d.severityScore, d.affectedUsers)
  }

  /** The cases a live stream builds from its draws when the counter starts
      at n, in draw order. */
  function LiveCases(ds: seq<Draw>, n: nat): (r: seq<AICase>)
    requires forall d :: d in ds ==> DrawOk(d)
    ensures |r| == |ds|
    decreases |ds|
  {
    if ds == [] then []
    else
      var last := |ds| - 1;
      assert ds[last] in ds;
      LiveCases(ds[..last], n) + [LiveCase(ds[last], n + last)]
  }

  /** The k-th streamed case is built from the k-th draw with counter value n + k. */
  lemma {:induction false} LiveCasesAt(ds: seq<Draw>, n: nat, k: nat)
    requires forall d :: d in ds ==> DrawOk(d)
    requires k < |ds|
    ensures DrawOk(ds[k])
    ensures LiveCases(ds, n)[k] == LiveCase(ds[k], n + k)
    ensures LiveCases(ds, n)[k].id == CaseId(Live, n + k)
    decreases |ds|
  {
    assert ds[k] in ds;
    var last := |ds| - 1;
    if k < last {
      assert ds[..last][k] == ds[k];
      LiveCasesAt(ds[..last], n, k);
    }
  }

  lemma LiveCasesSnoc(ds: seq<Draw>, i: nat, n: nat)
    requires forall d :: d in ds ==> DrawOk(d)
    requires i < |ds|
    ensures forall d :: d in ds[..i + 1] ==> DrawOk(d)
    ensures LiveCases(ds[..i + 1], n) == LiveCases(ds[..i], n) + [LiveCase(ds[i], n + i)]
  {
    assert ds[..i + 1][..i] == ds[..i];
  }

  class Registry {
    var cases: seq<AICase>
    var caseCounter: nat

    /** The counter is always the number of the next id, and ids are numbered
        from FirstCaseNumber in creation order. */
    ghost predicate Valid()
      reads this
    {
      caseCounter == FirstCaseNumber + |cases| && WellNumbered(cases)
    }

    /** The session state's first initialisation. */
    constructor ()
      ensures Valid()
      ensures cases == [] && caseCounter == FirstCaseNumber
    {
      cases := [];
      caseCounter := FirstCaseNumber;
    }

    /** Appends one new case whose id uses the counter, then bumps the counter. */
    method AddCase(o: Origin, title: string, description: string, category: string,
                   priority: string, reportedBy: string, platform: string, now: nat,
                   severityScore: int, affectedUsers: int) returns (id: string)
      requires Valid()
      requires priority in Priorities
      requires MinSeverity <= severityScore <= MaxSeverity
      requires MinAffectedUsers <= affectedUsers <= MaxAffectedUsers
      modifies this
      ensures Valid()
      ensures id == CaseId(o, old(caseCounter))
      ensures caseCounter == old(caseCounter) + 1
      ensures cases == old(cases) + [NewCase(id, title, description, category, priority,
                                             reportedBy, platform, now, severityScore, affectedUsers)]
      ensures Find(old(cases), id).None? && Find(cases, id) == Some(|old(cases)|)
    {
      NextIdUnused(cases, o);
      id := CaseId(o, caseCounter);
      var c := NewCase(id, title, description, category, priority, reportedBy, platform,
                       now, severityScore, affectedUsers);
      FindAppended(cases, c);
      AppendKeepsNumbering(cases, c);
      cases := cases + [c];
      caseCounter := caseCounter + 1;
    }

    /** The sidebar's "Generate Test Case" button: one case built from the
        chosen sample, reported by "System Generated", id "CASE-<counter>". */
    method GenerateTestCase(template: Template, now: nat, severityScore: int, affectedUsers: int)
      returns (id: string)
      requires Valid()
      requires UsableSample(template)
      requires MinSeverity <= severityScore <= MaxSeverity
      requires MinAffectedUsers <= affectedUsers <= MaxAffectedUsers
      modifies this
      ensures Valid()
      ensures id == CaseId(Generated, old(caseCounter))
      ensures caseCounter == old(caseCounter) + 1
      ensures cases == old(cases) + [NewCase(id, template.title, template.description, template.category,
                                             template.priority, "System Generated", template.platform,
                                             now, severityScore, affectedUsers)]
      ensures Find(cases, id) == Some(|old(cases)|)
    {
      id := AddCase(Generated, template.title, template.description, template.category,
                    template.priority, "System Generated", template.platform,
                    now, severityScore, affectedUsers);
    }

    /** "Simulate New Case Stream", a button the analytics tab shows only
        once the registry holds a case: three cases, each with title
        "[LIVE] ...", reported by "Live Stream", id "LIVE-<counter>",
        sharing the counter with the generated cases. */
    method SimulateLiveStream(draws: seq<Draw>)
      requires Valid()
      requires |cases| > 0
      requires |draws| == LiveStreamLength
      requires forall d :: d in draws ==> DrawOk(d)
      modifies this
      ensures Valid()
      ensures caseCounter == old(caseCounter) + LiveStreamLength
      ensures cases == old(cases) + LiveCases(draws, old(caseCounter))
    {
      ghost var initial, start := cases, caseCounter;
      for i := 0 to LiveStreamLength
        invariant Valid()
        invariant caseCounter == start + i
        invariant cases == initial + LiveCases(draws[..i], start)
      {
        assert DrawOk(draws[i]) by { assert draws[i] in draws; }
        LiveCasesSnoc(draws, i, start);
        AddLiveCase(draws[i]);
        assert cases == initial + (LiveCases(draws[..i], start) + [LiveCase(draws[i], start + i)]);
      }
      assert draws[..LiveStreamLength] == draws;
    }

    /** One step of the live stream: the case built from one draw. */
    method AddLiveCase(d: Draw)
      requires Valid()
      requires DrawOk(d)
      modifies this
      ensures Valid()
      ensures caseCounter == old(caseCounter) + 1
      ensures cases == old(cases) + [LiveCase(d, old(caseCounter))]
    {
      var t := d.template;
      var _ := AddCase(Live, "[LIVE] " + t.title, t.description, t.category, t.priority,
                       "Live Stream", t.platform, d.now, d.severityScore, d.affectedUsers);
    }

    /** The dashboard's status selector on the case with this id; it is shown
        only for a case that is not resolved. An unknown id changes nothing. */
    method UpdateStatusFromDashboard(id: string, newStatus: string, now: nat) returns (found: bool)
      requires Valid()
      requires newStatus in Statuses
      modifies this
      ensures Valid() && caseCounter == old(caseCounter)
      ensures found <==> Find(old(cases), id).Some?
      ensures found ==> cases == old(cases)[Find(old(cases), id).value :=
                                    DashboardStatus(old(cases)[Find(old(cases), id).value], newStatus, now)]
      ensures !found ==> cases == old(cases)
    {
      match Find(cases, id)
      case None =>
        found := false;
      case Some(i) =>
        ReplaceKeepsNumbering(cases, i, DashboardStatus(cases[i], newStatus, now));
        cases := cases[i := DashboardStatus(cases[i], newStatus, now)];
        found := true;
    }

    /** The detail panel's status selector on the selected case: any status,
        "resolved" to another included. An unknown id changes nothing. */
    method UpdateStatus(id: string, newStatus: string, now: nat) returns (found: bool)
      requires Valid()
      requires newStatus in Statuses
      modifies this
      ensures Valid() && caseCounter == old(caseCounter)
      ensures found <==> Find(old(cases), id).Some?
      ensures found ==> cases == old(cases)[Find(old(cases), id).value :=
                                    ChangeStatus(old(cases)[Find(old(cases), id).value], newStatus, now)]
      ensures !found ==> cases == old(cases)
    {
      match Find(cases, id)
      case None =>
        found := false;
      case Some(i) =>
        ReplaceKeepsNumbering(cases, i, ChangeStatus(cases[i], newStatus, now));
        cases := cases[i := ChangeStatus(cases[i], newStatus, now)];
        found := true;
    }

    /** The dashboard's "Assign to me" button with the sidebar's choice. */
    method AssignCaseToMe(id: string, selected: string) returns (found: bool)
      requires Valid()
      requires selected in AssigneeChoices
      modifies this
      ensures Valid() && caseCounter == old(caseCounter)
      ensures found <==> Find(old(cases), id).Some?
      ensures found ==> cases == old(cases)[Find(old(cases), id).value :=
                                    AssignToMe(old(cases)[Find(old(cases), id).value], selected)]
      ensures !found ==> cases == old(cases)
    {
      match Find(cases, id)
      case None =>
        found := false;
      case Some(i) =>
        ReplaceKeepsNumbering(cases, i, AssignToMe(cases[i], selected));
        cases := cases[i := AssignToMe(cases[i], selected)];
        found := true;
    }

    /** The detail panel's assignee selector on the selected case. */
    method AssignCase(id: string, choice: string) returns (found: bool)
      requires Valid()
      requires choice in AssigneeChoices
      modifies this
      ensures Valid() && caseCounter == old(caseCounter)
      ensures found <==> Find(old(cases), id).Some?
      ensures found ==> cases == old(cases)[Find(old(cases), id).value :=
                                    Assign(old(cases)[Find(old(cases), id).value], choice)]
      ensures !found ==> cases == old(cases)
    {
      match Find(cases, id)
      case None =>
        found := false;
      case Some(i) =>
        ReplaceKeepsNumbering(cases, i, Assign(cases[i], choice));
        cases := cases[i := Assign(cases[i], choice)];
        found := true;
    }

    /** The detail panel's resolution text area on the selected case. */
    method RecordResolution(id: string, text: string) returns (found: bool)
      requires Valid()
      modifies this
      ensures Valid() && caseCounter == old(caseCounter)
      ensures found <==> Find(old(cases), id).Some?
      ensures found ==> cases == old(cases)[Find(old(cases), id).value :=
                                    EditResolution(old(cases)[Find(old(cases), id).value], text)]
      ensures !found ==> cases == old(cases)
    {
      match Find(cases, id)
      case None =>
        found := false;
      case Some(i) =>
        ReplaceKeepsNumbering(cases, i, EditResolution(cases[i], text));
        cases := cases[i := EditResolution(cases[i], text)];
        found := true;
    }

    /** The detail panel's "Add ... Action" button on the selected case. */
    method AddAdvocacyAction(id: string, kind: string, action: string, now: nat) returns (found: bool)
      requires Valid()
      requires kind in AdvocacyTemplates && action in AdvocacyTemplates[kind]
      modifies this
      ensures Valid() && caseCounter == old(caseCounter)
      ensures found <==> Find(old(cases), id).Some?
      ensures found ==> cases == old(cases)[Find(old(cases), id).value :=
                                    AddAction(old(cases)[Find(old(cases), id).value], kind, action, now)]
      ensures !found ==> cases == old(cases)
    {
      match Find(cases, id)
      case None =>
        found := false;
      case Some(i) =>
        ReplaceKeepsNumbering(cases, i, AddAction(cases[i], kind, action, now));
        cases := cases[i := AddAction(cases[i], kind, action, now)];
        found := true;
    }

    /** The chat panel's "Send" button on the selected case; the advisor's
        reply is the random choice, passed in. */
    method SendChatMessage(id: string, message: string, reply: string, now: nat) returns (found: bool)
      requires Valid()
      requires reply in AiResponses
      modifies this
      ensures Valid() && caseCounter == old(caseCounter)
      ensures found <==> Find(old(cases), id).Some?
      ensures found ==> cases == old(cases)[Find(old(cases), id).value :=
                                    SendMessage(old(cases)[Find(old(cases), id).value], message, reply, now)]
      ensures !found ==> cases == old(cases)
    {
      match Find(cases, id)
      case None =>
        found := false;
      case Some(i) =>
        ReplaceKeepsNumbering(cases, i, SendMessage(cases[i], message, reply, now));
        cases := cases[i := SendMessage(cases[i], message, reply, now)];
        found := true;
    }

    /** A quick-suggestion button of the chat panel on the selected case. */
    method SendQuickSuggestion(id: string, suggestion: string, now: nat) returns (found: bool)
      requires Valid()
      requires suggestion in QuickResponses
      modifies this
      ensures Valid() && caseCounter == old(caseCounter)
      ensures found <==> Find(old(cases), id).Some?
      ensures found ==> cases == old(cases)[Find(old(cases), id).value :=
                                    SendSuggestion(old(cases)[Find(old(cases), id).value], suggestion, now)]
      ensures !found ==> cases == old(cases)
    {
      match Find(cases, id)
      case None =>
        found := false;
      case Some(i) =>
        ReplaceKeepsNumbering(cases, i, SendSuggestion(cases[i], suggestion, now));
        cases := cases[i := SendSuggestion(cases[i], suggestion, now)];
        found := true;
    }
  }

  /** The first id the counter hands out. */
  lemma FirstGeneratedId()
    ensures CaseId(Generated, FirstCaseNumber) == "CASE-1000"
  {
    assert Decimal(1000) == Decimal(100) + ['0'];
    assert Decimal(100) == Decimal(10) + ['0'];
    assert Decimal(10) == Decimal(1) + ['0'];
  }

  /** A session as a caller sees it through the contracts alone: the first
      generated case is "CASE-1000", a status change and a resolution apply
      to it, and the metrics follow. */
  method ExampleSession(now: nat)
  {
    var r := new Registry();
    PredefinedSamplesUsable(PredefinedCases[0]);
    var id := r.GenerateTestCase(PredefinedCases[0], now, 50, 500);
    FirstGeneratedId();
    assert id == "CASE-1000";
    assert r.cases[0].status == Open && r.cases[0].priority == Urgent;
    assert ActiveCount(r.cases) == 1 && UrgentActiveCount(r.cases) == 1;

    var found := r.UpdateStatus(id, "investigating", now + 1);
    assert found && r.cases[0].status == "investigating" && r.cases[0].updatedAt == now + 1;

    found := r.RecordResolution(id, "Fixed");
    assert found && r.cases[0].status == Resolved && r.cases[0].updatedAt == now + 1;
    assert ActiveCount(r.cases) == 0 && ResolvedCount(r.cases) == 1;

    found := r.UpdateStatus("CASE-999", Open, now + 2);
    assert !found;
  }
}
