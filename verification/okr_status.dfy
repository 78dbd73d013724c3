/** The status badge shared by the team OKR cards and the corporate OKR
    cards: a label for the three OKR statuses and a colour for the badge.
    Both screens define the same two maps. */
module OkrStatus {

  /** The badge colour a status gets (the CSS classes, by hue). */
  datatype Tone = Blue | Green | Gray | Red

  const Active: string := "active"
  const Done: string := "done"
  const Draft: string := "draft"

  predicate IsKnownStatus(status: string) {
    status == Active || status == Done || status == Draft
  }

  /** `getStatusText`: a Russian label for a known status, the raw status
      otherwise. */
  function StatusText(status: string): (r: string)
    ensures status == Active ==> r == "Активный"
    ensures status == Done ==> r == "Завершен"
    ensures status == Draft ==> r == "Черновик"
    ensures !IsKnownStatus(status) ==> r == status
  {
    if status == Active then "Активный"
    else if status == Done then "Завершен"
    else if status == Draft then "Черновик"
    else status
  }

  /** `getStatusColor`: blue for active, green for done, grey for anything else. */
  function StatusTone(status: string): (t: Tone)
    ensures t == Blue <==> status == Active
    ensures t == Green <==> status == Done
    ensures t == Gray <==> status != Active && status != Done
    ensures t != Red
  {
    if status == Active then Blue
    else if status == Done then Green
    else Gray
  }

  /** The three known statuses get three different labels, none of which is
      a status name itself. */
  lemma KnownLabelsDistinct(a: string, b: string)
    requires IsKnownStatus(a) && IsKnownStatus(b) && a != b
    ensures StatusText(a) != StatusText(b)
    ensures !IsKnownStatus(StatusText(a))
  {
  }

  /** A draft and an unknown status share the grey badge; only the label tells
      them apart. */
  lemma DraftLooksLikeUnknown(status: string)
    requires !IsKnownStatus(status)
    ensures StatusTone(status) == StatusTone(Draft)
    ensures StatusText(status) == status
  {
  }
}
