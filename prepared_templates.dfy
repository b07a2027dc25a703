/** The fixed error cards every route falls back to, and the two shapes a route's response takes. */
module PreparedTemplates {
  datatype PreparedTemplate =
    | FailedFindUser
    | FailedFindRepo
    | FailedFindLanguages
    | BadCredentials
    | APIRateLimit
    | Unknown

  /** The two lines an error card shows. */
  datatype ErrorCard = ErrorCard(firstLine: string, secondLine: string)

  /** What a route answers: an error card, or a card laid out as `L`. */
  datatype Page<L> = ErrorPage(card: ErrorCard) | CardPage(layout: L)

  const SpelledCorrectly := "Check if it’s spelled correctly"

  /** The card `render` shows for each error; both lines are fixed and never blank. */
  function Render(t: PreparedTemplate): (card: ErrorCard)
    ensures card.firstLine != "" && card.secondLine != ""
    ensures card.secondLine == SpelledCorrectly <==> t == FailedFindUser || t == FailedFindRepo
  {
    match t
    case FailedFindUser => ErrorCard("Failed to find a user.", SpelledCorrectly)
    case FailedFindRepo => ErrorCard("Failed to find a repo.", SpelledCorrectly)
    case FailedFindLanguages => ErrorCard("Failed to find a user languages.", "Maybe he's inactive")
    case BadCredentials => ErrorCard("Bad credentials.", "Problems with service API token")
    case APIRateLimit => ErrorCard("Failed to fetch.", "Maybe our API ratelimited :(")
    case Unknown => ErrorCard("Unknown API error.", "Let us know about it")
  }

  /** The first line alone tells which error produced a card. */
  lemma FirstLineIdentifiesTemplate(a: PreparedTemplate, b: PreparedTemplate)
    ensures Render(a).firstLine == Render(b).firstLine ==> a == b
  {
  }
}
