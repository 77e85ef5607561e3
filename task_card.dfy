/** The status presentation helpers of src/components/tasks/TaskCard.tsx. A status is any
    string; the four stages are the ones the server knows. */
module TaskCard {

  /** The four stages, in workflow order. */
  const Stages: seq<string> := ["TODO", "IN_PROGRESS", "REVIEW", "DONE"]

  /** `getStatusBadgeVariant`. */
  function BadgeVariant(status: string): string {
    match status
    case "TODO" => "default"
    case "IN_PROGRESS" => "primary"
    case "REVIEW" => "warning"
    case "DONE" => "success"
    case _ => "default"
  }

  /** `getStatusLabel`: an unknown status is shown as it is. */
  function Label(status: string): string {
    match status
    case "TODO" => "To Do"
    case "IN_PROGRESS" => "In Progress"
    case "REVIEW" => "In Review"
    case "DONE" => "Done"
    case _ => status
  }

  /** `getProgressPercentage`. */
  function Progress(status: string): int {
    match status
    case "TODO" => 0
    case "IN_PROGRESS" => 33
    case "REVIEW" => 66
    case "DONE" => 100
    case _ => 0
  }

  /** The progress bar's colour. */
  function ProgressColor(status: string): string {
    if status == "DONE" then "green" else "blue"
  }

  /** The options of the status selector, as (value, label) pairs. */
  const StatusOptions: seq<(string, string)> :=
    [("TODO", "To Do"), ("IN_PROGRESS", "In Progress"), ("REVIEW", "In Review"), ("DONE", "Done")]

  /** Progress rises strictly along the stages, stays within 0..100, is 100 only when done,
      and is 0 for a status outside the four stages. */
  lemma ProgressAlongStages(status: string)
    ensures forall i, j :: 0 <= i < j < |Stages| ==> Progress(Stages[i]) < Progress(Stages[j])
    ensures 0 <= Progress(status) <= 100
    ensures Progress(status) == 100 <==> status == "DONE"
    ensures status !in Stages ==> Progress(status) == 0 && BadgeVariant(status) == "default" && Label(status) == status
  {
  }

  /** The bar is green exactly for a finished task. */
  lemma GreenIffDone(status: string)
    ensures ProgressColor(status) == "green" <==> Progress(status) == 100
  {
    ProgressAlongStages(status);
  }

  /** The selector offers exactly the four stages in workflow order, each under its label,
      and the four labels and the four badges are pairwise distinct. */
  lemma OptionsFollowStages()
    ensures |StatusOptions| == |Stages|
    ensures forall i :: 0 <= i < |Stages| ==> StatusOptions[i] == (Stages[i], Label(Stages[i]))
    ensures forall i, j :: 0 <= i < j < |Stages| ==> Label(Stages[i]) != Label(Stages[j])
    ensures forall i, j :: 0 <= i < j < |Stages| ==> BadgeVariant(Stages[i]) != BadgeVariant(Stages[j])
  {
  }
}
