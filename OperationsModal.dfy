/** The operations wizard dialog (src/components/dashboard/OperationsModals.tsx):
    a directive typed in the first step is "transmitted", a timed entropy
    step derives a name and a priority from it, and the last step turns the
    (possibly edited) name and priority into a new project. The entropy
    step's timers are one step, `FinishEntropy`, taken after the others;
    `Math.random() * 1000` is the parameter `roll`. */
module OperationsModal {
  import opened Common
  import opened Operations
  import Projects

  const NameLimit := 30
  const UntitledName := "UNTITLED_DIRECTIVE"
  const DefaultFinalName := "NEW_OPERATION"
  const Elevated := "ELEVATED"
  const CriticalPriority := "CRITICAL"
  const DefaultDescription := "Initialized via Active Operations"
  const CriticalColor := "#ff3333"
  const RegularColor := "#f9f906"

  /** `s || d` on a string. */
  function OrElse(s: string, d: string): (r: string)
    ensures s != "" ==> r == s
    ensures s == "" ==> r == d
  {
    if s != "" then s else d
  }

  /** The name derived from the directive: its first 30 characters without
      surrounding blanks, or 'UNTITLED_DIRECTIVE' when nothing is left. */
  function ExtractedName(directive: string): (r: string)
    ensures r != ""
    ensures r != UntitledName ==> |r| <= NameLimit && !IsSpace(r[0]) && !IsSpace(r[|r| - 1])
    ensures AllSpace(Take(directive, NameLimit)) ==> r == UntitledName
    ensures !AllSpace(Take(directive, NameLimit)) ==> r == Trim(Take(directive, NameLimit))
  {
    OrElse(Trim(Take(directive, NameLimit)), UntitledName)
  }

  predicate IsUrgent(directive: string) {
    Contains(ToLower(directive), "urgent") || Contains(ToLower(directive), "critical")
  }

  function ExtractedPriority(directive: string): (r: string)
    ensures r == CriticalPriority <==> IsUrgent(directive)
    ensures r == Elevated <==> !IsUrgent(directive)
  {
    if IsUrgent(directive) then CriticalPriority else Elevated
  }

  /** The mention of either word decides, in any letter case. */
  lemma UrgentAnyCase(before: string, after: string)
    ensures ExtractedPriority(before + "URGENT" + after) == CriticalPriority
    ensures ExtractedPriority(before + "Critical" + after) == CriticalPriority
  {
    var d1 := before + "URGENT" + after;
    var d2 := before + "Critical" + after;
    assert ToLower(d1)[|before|..][..6] == "urgent";
    assert StartsWith(ToLower(d1)[|before|..], "urgent");
    assert ToLower(d2)[|before|..][..8] == "critical";
    assert StartsWith(ToLower(d2)[|before|..], "critical");
  }

  /** The project draft `handleConfirm` hands to the project store. */
  function ConfirmDraft(finalName: string, finalPriority: string, directive: string, roll: nat): (d: Projects.ProjectDraft)
    ensures d.name == ToUpper(finalName) && |d.name| == |finalName|
    ensures d.status == Projects.Running && d.progress == 0 && d.totalTasks == 0 && d.completedTasks == 0
    ensures d.tags == [finalPriority]
    ensures d.description == Some(if directive != "" then directive else DefaultDescription)
    ensures d.color == Some(if finalPriority == CriticalPriority then CriticalColor else RegularColor)
  {
    Projects.ProjectDraft(
      TechnicalId(finalName, roll),
      ToUpper(finalName),
      Some(OrElse(directive, DefaultDescription)),
      Projects.Running, 0, 0, 0,
      [finalPriority],
      Some(if finalPriority == CriticalPriority then CriticalColor else RegularColor))
  }

  /** The first three characters uppercased, a dash, and the roll. */
  function TechnicalId(finalName: string, roll: nat): (r: string)
    ensures |r| > |Take(finalName, 3)| + 1
    ensures r[..|Take(finalName, 3)|] == ToUpper(Take(finalName, 3)) && r[|Take(finalName, 3)|] == '-'
  {
    ToUpper(Take(finalName, 3)) + "-" + NatToString(roll)
  }

  /** The number after the dash reads back as the roll. */
  lemma TechnicalIdRoll(finalName: string, roll: nat)
    ensures DigitsValue(TechnicalId(finalName, roll)[|Take(finalName, 3)| + 1..]) == roll
  {
    var p := ToUpper(Take(finalName, 3)) + "-";
    assert TechnicalId(finalName, roll)[|p|..] == NatToString(roll);
    NatToStringValue(roll);
  }

  /** What the project store sends for the confirmed project: the accent
      follows the priority; the technical id and the priority tag the
      dialog built are not among the columns sent. */
  lemma ConfirmPayload(finalName: string, finalPriority: string, directive: string, roll: nat)
    ensures var p := Projects.InsertPayload(ConfirmDraft(finalName, finalPriority, directive, roll));
      && "color_accent" in p
      && (p["color_accent"] == JStr(CriticalColor) <==> finalPriority == CriticalPriority)
      && "technicalId" !in p && "tags" !in p
  {
  }

  /** The dialog's own state: the name and priority shown in the last step. */
  class OperationsDialog {
    var finalName: string
    var finalPriority: string

    constructor ()
      ensures finalName == "" && finalPriority == Elevated
    {
      finalName, finalPriority := "", Elevated;
    }

    /** The effect that runs on entering the last step: the parsed values,
        or their defaults. */
    method SyncProtocol(ops: OperationsStore)
      modifies this
      ensures ops.step == Protocol ==> finalName == OrElse(ops.parsedName, DefaultFinalName)
      ensures ops.step == Protocol ==> finalPriority == OrElse(ops.parsedPriority, Elevated)
      ensures ops.step != Protocol ==> finalName == old(finalName) && finalPriority == old(finalPriority)
    {
      if ops.step == Protocol {
        finalName := OrElse(ops.parsedName, DefaultFinalName);
        finalPriority := OrElse(ops.parsedPriority, Elevated);
      }
    }

    method SetFinalName(name: string)
      modifies this
      ensures finalName == name && finalPriority == old(finalPriority)
    {
      finalName := name;
    }

    method SetFinalPriority(p: string)
      modifies this
      ensures finalPriority == p && finalName == old(finalName)
    {
      finalPriority := p;
    }

    /** A blank directive is refused; anything else moves to the entropy
        step. */
    method HandleTransmit(ops: OperationsStore)
      modifies ops
      ensures AllSpace(old(ops.directive)) ==> ops.State() == old(ops.State())
      ensures !AllSpace(old(ops.directive)) ==> ops.State() == old(ops.State()).(step := Entropy)
    {
      if Trim(ops.directive) == "" {
        return;
      }
      ops.SetStep(Entropy);
    }

    /** The last timer of the entropy step: the parse is stored and the
        wizard moves on. Outside that step no timer is pending. */
    method FinishEntropy(ops: OperationsStore)
      modifies ops
      ensures old(ops.step) == Entropy ==> ops.State() == old(ops.State()).(
        step := Protocol,
        parsedName := ExtractedName(old(ops.directive)),
        parsedPriority := ExtractedPriority(old(ops.directive)))
      ensures old(ops.step) != Entropy ==> ops.State() == old(ops.State())
    {
      if ops.step == Entropy {
        var extractedName := ExtractedName(ops.directive);
        var priority := ExtractedPriority(ops.directive);
        ops.SetParsedData(extractedName, priority);
        ops.SetStep(Protocol);
      }
    }

    /** A blank name is refused; otherwise the project is added (the
        outcome is the backend's answer) and the wizard closes whatever
        that answer was. */
    method HandleConfirm(ops: OperationsStore, projects: Projects.ProjectStore, roll: nat, outcome: Remote<Projects.ProjectRow>)
        returns (sent: Option<map<string, Json>>)
      requires roll < 1000
      modifies ops, projects
      ensures finalName == old(finalName) && finalPriority == old(finalPriority)
      ensures projects.selectedProjectId == old(projects.selectedProjectId)
      ensures AllSpace(finalName) ==>
        && sent == None && ops.State() == old(ops.State())
        && projects.projects == old(projects.projects) && projects.isLoading == old(projects.isLoading)
        && projects.error == old(projects.error)
      ensures !AllSpace(finalName) ==>
        && sent == Some(Projects.InsertPayload(ConfirmDraft(finalName, finalPriority, old(ops.directive), roll)))
        && projects.Settled(outcome.Err?, if outcome.Err? then outcome.message else "")
        && ops.State() == old(ops.State()).(isOpen := false)
        && projects.projects == (if outcome.Ok? then [Projects.FromRow(outcome.value, Projects.AddedDefaultId)] + old(projects.projects)
                                 else old(projects.projects))
    {
      if Trim(finalName) == "" {
        return None;
      }
      var draft := ConfirmDraft(finalName, finalPriority, ops.directive, roll);
      var payload := projects.AddProject(draft, outcome);
      ops.CloseOperations();
      sent := Some(payload);
    }
  }
}
