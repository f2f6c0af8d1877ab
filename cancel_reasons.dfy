/** The cancel-reason form that both the admin orders page
    (web/pages/admin/orders.js:361-376) and the shopper's orders page
    (web/pages/orders.js:30-46) put in front of a cancellation: a choice from
    a list, and a free text when the choice is 'Other'. */
module CancelReasons {
  import opened Wrappers
  import Text

  const Other := "Other"

  datatype ReasonProblem = NoChoice | BlankCustom

  /** Why the form is refused: nothing chosen, or 'Other' with only white
      space typed. The choice is checked first. */
  function Problem(choice: string, custom: string): (r: Option<ReasonProblem>)
    ensures r == Some(NoChoice) <==> choice == ""
    ensures r == Some(BlankCustom) <==> choice == Other && Text.AllSpace(custom)
    ensures r.None? <==> choice != "" && (choice == Other ==> !Text.AllSpace(custom))
  {
    if choice == "" then Some(NoChoice)
    else if choice == Other && Text.Trim(custom) == "" then Some(BlankCustom)
    else None
  }

  /** The reason sent: the typed text, untrimmed, for 'Other', otherwise the
      chosen option. */
  function FinalReason(choice: string, custom: string): (r: string)
    ensures choice == Other ==> r == custom
    ensures choice != Other ==> r == choice
  {
    if choice == Other then custom else choice
  }

  /** A reason that passes the form is never empty or blank. */
  lemma AcceptedReasonIsNotBlank(choice: string, custom: string)
    requires Problem(choice, custom).None?
    ensures FinalReason(choice, custom) != ""
    ensures choice == Other ==> !Text.AllSpace(FinalReason(choice, custom))
  {
  }
}
