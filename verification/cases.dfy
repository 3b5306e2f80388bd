/** The case record of the dashboard (class AICase in advocate.py), the fixed
    option lists its widgets offer, and the per-case edits the dashboard,
    detail panel and chat panel make. Each edit is a function from the case
    before to the case after; the registry applies it to the case selected by id. */
module Cases {
  import opened Wrappers
  import opened Text

  /** One entry of a case's chat log. */
  datatype ChatTurn = ChatTurn(sender: string, message: string, time: nat)

  /** One advocacy action recorded on a case. */
  datatype AdvocacyAction = AdvocacyAction(kind: string, action: string, date: nat, status: string)

  /** A case. Timestamps are readings of an abstract clock. */
  datatype AICase = AICase(
    id: string,
    title: string,
    description: string,
    category: string,
    priority: string,
    status: string,
    reportedBy: string,
    platform: string,
    createdAt: nat,
    updatedAt: nat,
    resolution: string,
    advocacyActions: seq<AdvocacyAction>,
    chatHistory: seq<ChatTurn>,
    assignedTo: string,
    severityScore: int,
    affectedUsers: int)

  /** One entry of the built-in list of sample cases. */
  datatype Template = Template(title: string, description: string, category: string,
                               priority: string, platform: string, affectedDemo: string)

  const Open := "open"
  const Resolved := "resolved"
  const Statuses: seq<string> := [Open, "investigating", "escalated", Resolved]
  const Priorities: seq<string> := ["urgent", "high", "medium", "low"]
  const Urgent := "urgent"

  const UserSender := "user"
  const AiSender := "ai"
  const PendingAction := "pending"

  /** The sidebar's "Assign to:" choice that means nobody in particular. */
  const Unassigned := "Unassigned"
  /** What "Assign to me" stores when the sidebar choice is Unassigned. */
  const You := "You"
  const TeamMembers: seq<string> := ["Alex Chen", "Maria Garcia", "David Kim", "Sarah Johnson", "James Wilson"]
  const AssigneeChoices: seq<string> := [Unassigned] + TeamMembers

  const MinSeverity := 1
  const MaxSeverity := 100
  const MinAffectedUsers := 100
  const MaxAffectedUsers := 10000

  const PredefinedCases: seq<Template> := [
    Template("Algorithmic Bias in Hiring Platform",
             "AI recruiting tool showing significant gender bias, favoring male candidates over equally qualified female candidates in tech roles.",
             "Bias & Discrimination", "urgent", "TechHire AI", "Women in tech"),
    Template("Healthcare AI Misdiagnosis",
             "Medical diagnostic AI incorrectly diagnosing rare diseases, leading to delayed treatment for 200+ patients.",
             "Healthcare Safety", "urgent", "MedScan AI", "Patients with rare diseases"),
    Template("Facial Recognition False Positives",
             "Law enforcement facial recognition system misidentifying individuals, disproportionately affecting minority communities.",
             "Privacy & Surveillance", "high", "SafeCity AI", "Minority communities"),
    Template("Social Media Recommendation Harm",
             "AI recommendation algorithm promoting harmful content to teenagers, linked to mental health issues.",
             "Content Moderation", "high", "SocialFlow", "Teenagers"),
    Template("Autonomous Vehicle Ethics Dilemma",
             "Self-driving car algorithm showing inconsistent decision-making in accident scenarios, raising ethical concerns.",
             "Autonomous Systems", "medium", "AutoDrive Inc", "General public"),
    Template("Financial AI Loan Discrimination",
             "AI loan approval system systematically denying applications from certain zip codes, perpetuating historical redlining.",
             "Financial Equity", "urgent", "FinTech Solutions", "Low-income neighborhoods")
  ]

  const AdvocacyTemplates: map<string, seq<string>> := map[
    "Legal" := ["File regulatory complaint with relevant authority",
                "Initiate class action lawsuit preparations",
                "Request algorithmic transparency under GDPR/CCPA",
                "Submit Freedom of Information Act request"],
    "Media" := ["Prepare press release for media outlets",
                "Contact investigative journalists",
                "Draft op-ed for major newspapers",
                "Create social media awareness campaign"],
    "Technical" := ["Request independent algorithmic audit",
                    "Demand source code review",
                    "Propose third-party validation",
                    "Request bias mitigation implementation"],
    "Community" := ["Organize community forum with affected individuals",
                    "Create online petition",
                    "Coordinate with advocacy groups",
                    "Host public awareness webinar"],
    "Corporate" := ["Schedule meeting with company executives",
                    "Propose ethical AI review board",
                    "Demand public transparency report",
                    "Request immediate system suspension"]
  ]

  /** The canned replies of the simulated advisor. */
  const AiResponses: seq<string> := [
    "Based on similar cases, I recommend documenting all evidence systematically.",
    "Consider contacting the platform's ethics committee directly.",
    "Have you reviewed the platform's algorithmic accountability report?",
    "This might require escalating to regulatory authorities.",
    "I suggest conducting an independent impact assessment first.",
    "Let's identify all stakeholders affected by this issue."
  ]

  /** The quick-suggestion buttons of the chat panel. */
  const QuickResponses: seq<string> := [
    "What's the first step?",
    "Who should we contact?",
    "Documentation needed?",
    "Legal implications?",
    "Media strategy?"
  ]

  const ResolutionSteps: seq<string> := [
    "Investigation", "Evidence Collection", "Stakeholder Engagement",
    "Solution Design", "Implementation", "Verification"
  ]

  /** What stays true of every case the dashboard can produce. */
  ghost predicate Consistent(c: AICase)
  {
    c.status in Statuses &&
    c.priority in Priorities &&
    MinSeverity <= c.severityScore <= MaxSeverity &&
    MinAffectedUsers <= c.affectedUsers <= MaxAffectedUsers &&
    (forall t :: t in c.chatHistory ==> t.sender == UserSender || t.sender == AiSender) &&
    (forall a :: a in c.advocacyActions ==> a.status == PendingAction)
  }

  /** A freshly constructed case (AICase.__init__). The two scores are the
      random draws of the constructor, passed in. */
  function NewCase(id: string, title: string, description: string, category: string,
                   priority: string, reportedBy: string, platform: string, now: nat,
                   severityScore: int, affectedUsers: int): (c: AICase)
    requires MinSeverity <= severityScore <= MaxSeverity
    requires MinAffectedUsers <= affectedUsers <= MaxAffectedUsers
    ensures c.status == Open && c.resolution == "" && c.assignedTo == ""
    ensures c.advocacyActions == [] && c.chatHistory == []
    ensures MinSeverity <= c.severityScore <= MaxSeverity
    ensures MinAffectedUsers <= c.affectedUsers <= MaxAffectedUsers
    ensures c.createdAt == now && c.updatedAt == now
    ensures c.id == id && c.title == title && c.description == description
    ensures c.category == category && c.priority == priority
    ensures c.reportedBy == reportedBy && c.platform == platform
    ensures priority in Priorities ==> Consistent(c)
  {
    AICase(id, title, description, category, priority, Open, reportedBy, platform,
           now, now, "", [], [], "", severityScore, affectedUsers)
  }

  /** What the registry relies on in the sample a button draws: its
      priority is one of the four. */
  predicate UsableSample(t: Template)
  {
    t.priority in Priorities
  }

  /** Every built-in sample is usable, so the cases built from them need no
      priority validation; none of them is "low". */
  lemma PredefinedSamplesUsable(t: Template)
    requires t in PredefinedCases
    ensures UsableSample(t) && t.priority != "low"
  {
  }

  /** Choosing a status in the detail panel: status and last-update time change
      only when the chosen status differs; any status may follow any other,
      "resolved" included. */
  function ChangeStatus(c: AICase, newStatus: string, now: nat): (r: AICase)
    ensures r.status == newStatus
    ensures newStatus == c.status ==> r == c
    ensures newStatus != c.status ==> r.updatedAt == now && r == c.(status := newStatus, updatedAt := now)
    ensures newStatus in Statuses && Consistent(c) ==> Consistent(r)
  {
    if newStatus != c.status then c.(status := newStatus, updatedAt := now) else c
  }

  /** Choosing a status on the dashboard: the selector is offered only for a
      case that is not resolved, so a resolved case is left as it is. */
  function DashboardStatus(c: AICase, newStatus: string, now: nat): (r: AICase)
    ensures c.status == Resolved ==> r == c
    ensures c.status != Resolved ==> r.status == newStatus
    ensures newStatus == c.status ==> r == c
    ensures r == c || r == c.(status := newStatus, updatedAt := now)
    ensures newStatus in Statuses && Consistent(c) ==> Consistent(r)
  {
    if c.status != Resolved then ChangeStatus(c, newStatus, now) else c
  }

  /** The dashboard's "Assign to me" button: offered only while nobody is
      assigned; it stores the sidebar's choice, or "You" when that is
      Unassigned. Afterwards somebody is always assigned. */
  function AssignToMe(c: AICase, selected: string): (r: AICase)
    requires selected in AssigneeChoices
    ensures r.assignedTo != ""
    ensures c.assignedTo != "" ==> r == c
    ensures c.assignedTo == "" ==> r.assignedTo == (if selected == Unassigned then You else selected)
    ensures r == c.(assignedTo := r.assignedTo)
    ensures Consistent(c) ==> Consistent(r)
  {
    if c.assignedTo != "" then c
    else c.(assignedTo := if selected != Unassigned then selected else You)
  }

  /** The detail panel's assignee selector: the case ends up assigned to the
      chosen entry (the literal "Unassigned" included), nothing else changes,
      and the last-update time is not refreshed. */
  function Assign(c: AICase, choice: string): (r: AICase)
    ensures r == c.(assignedTo := choice)
    ensures Consistent(c) ==> Consistent(r)
  {
    if choice != c.assignedTo then c.(assignedTo := choice) else c
  }

  /** The detail panel's resolution text area. A text that differs from the
      stored one replaces it, and if it is non-empty the case becomes
      resolved. The last-update time is not refreshed. */
  function EditResolution(c: AICase, text: string): (r: AICase)
    ensures r.resolution == text
    ensures text != c.resolution && text != "" ==> r.status == Resolved
    ensures text == "" || text == c.resolution ==> r.status == c.status
    ensures r == c.(resolution := text, status := r.status)
    ensures r.updatedAt == c.updatedAt
    ensures Consistent(c) ==> Consistent(r)
  {
    if text != c.resolution then
      var edited := c.(resolution := text);
      if text != "" && c.status != Resolved then edited.(status := Resolved) else edited
    else c
  }

  /** The "Add ... Action" button: appends exactly one pending action of the
      chosen template at the end of the case's action list. */
  function AddAction(c: AICase, kind: string, action: string, now: nat): (r: AICase)
    requires kind in AdvocacyTemplates && action in AdvocacyTemplates[kind]
    ensures |r.advocacyActions| == |c.advocacyActions| + 1
    ensures r.advocacyActions[..|c.advocacyActions|] == c.advocacyActions
    ensures r.advocacyActions[|c.advocacyActions|] == AdvocacyAction(kind, action, now, PendingAction)
    ensures r == c.(advocacyActions := r.advocacyActions)
    ensures Consistent(c) ==> Consistent(r)
  {
    c.(advocacyActions := c.advocacyActions + [AdvocacyAction(kind, action, now, PendingAction)])
  }

  /** The chat "Send" button. A non-empty message adds exactly two turns,
      the user's message and then the advisor's reply; an empty one changes
      nothing. */
  function SendMessage(c: AICase, message: string, reply: string, now: nat): (r: AICase)
    requires reply in AiResponses
    ensures message == "" ==> r == c
    ensures message != "" ==>
              r.chatHistory == c.chatHistory + [ChatTurn(UserSender, message, now), ChatTurn(AiSender, reply, now)]
    ensures r == c.(chatHistory := r.chatHistory)
    ensures Consistent(c) ==> Consistent(r)
  {
    if message != "" then
      c.(chatHistory := c.chatHistory + [ChatTurn(UserSender, message, now), ChatTurn(AiSender, reply, now)])
    else c
  }

  /** A quick-suggestion button: adds exactly one user turn holding the
      suggestion, with no reply. */
  function SendSuggestion(c: AICase, suggestion: string, now: nat): (r: AICase)
    requires suggestion in QuickResponses
    ensures r.chatHistory == c.chatHistory + [ChatTurn(UserSender, suggestion, now)]
    ensures r == c.(chatHistory := r.chatHistory)
    ensures Consistent(c) ==> Consistent(r)
  {
    c.(chatHistory := c.chatHistory + [ChatTurn(UserSender, suggestion, now)])
  }

  /** The stored resolution text implies the resolved status. */
  predicate ResolutionMeansResolved(c: AICase)
  {
    c.resolution != "" ==> c.status == Resolved
  }

  /** Every edit except the detail panel's status selector keeps a case whose
      resolution text implies the resolved status in that condition. */
  lemma ResolutionInvariantKept(c: AICase, s: string, text: string, selected: string,
                                kind: string, action: string, message: string, reply: string,
                                suggestion: string, now: nat)
    requires ResolutionMeansResolved(c)
    requires selected in AssigneeChoices
    requires kind in AdvocacyTemplates && action in AdvocacyTemplates[kind]
    requires reply in AiResponses
    requires suggestion in QuickResponses
    ensures ResolutionMeansResolved(DashboardStatus(c, s, now))
    ensures ResolutionMeansResolved(EditResolution(c, text))
    ensures ResolutionMeansResolved(AssignToMe(c, selected))
    ensures ResolutionMeansResolved(Assign(c, selected))
    ensures ResolutionMeansResolved(AddAction(c, kind, action, now))
    ensures ResolutionMeansResolved(SendMessage(c, message, reply, now))
    ensures ResolutionMeansResolved(SendSuggestion(c, suggestion, now))
  {
  }

  /** The detail panel can move a resolved case back to another status while
      its resolution text stays: resolution text does not pin the status. */
  lemma ReopenKeepsResolution(c: AICase, text: string, now: nat)
    requires text != "" && text != c.resolution
    ensures var r := ChangeStatus(EditResolution(c, text), Open, now);
            r.resolution == text && r.status == Open && !ResolutionMeansResolved(r)
  {
  }

  /** Showing an unassigned case in the detail panel, with its selector left
      on the first entry, stores the literal "Unassigned"; from then on the
      case counts as assigned and "Assign to me" no longer acts on it. */
  lemma DetailPanelBlocksAssignToMe(c: AICase, selected: string)
    requires c.assignedTo == ""
    requires selected in AssigneeChoices
    ensures Assign(c, Unassigned) != c
    ensures Assign(c, Unassigned).assignedTo == Unassigned
    ensures AssignToMe(Assign(c, Unassigned), selected) == Assign(c, Unassigned)
  {
  }

  /** The state of one resolution step in the progress panel. */
  datatype StepState = Completed | Current | Pending

  /** The step the chat has reached: one step per three chat turns, capped at
      the last step. */
  function CurrentStep(chatLength: nat): (k: nat)
    ensures k < |ResolutionSteps|
    ensures k * 3 <= chatLength
    ensures k < |ResolutionSteps| - 1 ==> chatLength < (k + 1) * 3
  {
    if chatLength / 3 < |ResolutionSteps| - 1 then chatLength / 3 else |ResolutionSteps| - 1
  }

  /** A longer chat never moves the progress back. */
  lemma CurrentStepMonotone(m: nat, n: nat)
    requires m <= n
    ensures CurrentStep(m) <= CurrentStep(n)
  {
  }

  /** The per-step states the progress panel shows for a chat of the given length. */
  function StepStates(chatLength: nat): (r: seq<StepState>)
    ensures |r| == |ResolutionSteps|
    ensures forall i :: 0 <= i < |r| ==> (r[i] == Current <==> i == CurrentStep(chatLength))
    ensures forall i :: 0 <= i < |r| ==> (r[i] == Completed <==> i < CurrentStep(chatLength))
    ensures forall i :: 0 <= i < |r| ==> (r[i] == Pending <==> i > CurrentStep(chatLength))
  {
    var k := CurrentStep(chatLength);
    seq(|ResolutionSteps|, i => if i < k then Completed else if i == k then Current else Pending)
  }

  /** Exactly one step is current. */
  lemma ExactlyOneCurrent(chatLength: nat)
    ensures exists i :: 0 <= i < |StepStates(chatLength)| && StepStates(chatLength)[i] == Current
    ensures forall i, j :: 0 <= i < j < |StepStates(chatLength)| ==>
              !(StepStates(chatLength)[i] == Current && StepStates(chatLength)[j] == Current)
  {
    var k := CurrentStep(chatLength);
    assert StepStates(chatLength)[k] == Current;
  }

  /** The progress panel is shown only while the case has no resolution text. */
  function Progress(c: AICase): (r: Option<seq<StepState>>)
    ensures r.Some? <==> c.resolution == ""
    ensures r.Some? ==> r.value == StepStates(|c.chatHistory|)
  {
    if c.resolution == "" then Some(StepStates(|c.chatHistory|)) else None
  }
}
