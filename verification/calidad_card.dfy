/** What one record's card shows: start and end times, the review outcome,
    and which action buttons are offered. */
module CalidadCard {
  import opened Wrappers
  import opened CalidadModel

  /** The colour of the outcome line. */
  datatype Tone = Green | Red

  datatype ResultLine = ResultLine(text: string, tone: Tone)

  /** `formatTime`: "N/A" for a missing date, otherwise the clock time of
      the instant (its "HH:mm A" rendering is not modelled). */
  datatype TimeText = NotAvailable | ClockTime(at: nat)

  datatype Card = Card(
    startTime: TimeText,
    endTime: Option<TimeText>,
    result: Option<ResultLine>,
    showStart: bool,
    showApprove: bool,
    showReject: bool,
    showComments: bool
  )

  const Aprobado := "Aprobado"

  /** JavaScript truthiness of an optional string. */
  predicate Truthy(s: Option<string>) {
    s.Some? && s.value != ""
  }

  function FormatTime(date: Option<nat>): (t: TimeText)
    ensures t == NotAvailable <==> date.None?
  {
    match date
    case None => NotAvailable
    case Some(d) => ClockTime(d)
  }

  /** The card for a record. Timestamps arrive as ISO strings, which are
      never empty, so a timestamp is truthy exactly when present. */
  function Render(item: Calidad): (card: Card)
    ensures card.showStart <==> item.iniOper.None?
    ensures card.showApprove <==> item.iniOper.Some? && item.finOper.None?
    ensures card.showReject == card.showApprove
    ensures card.showComments
    ensures card.result.Some? <==> item.finOper.Some? && Truthy(item.statusOs)
    ensures card.result.Some? ==> card.result.value.text == item.statusOs.value
    ensures card.result.Some? ==> (card.result.value.tone == Green <==> item.statusOs == Some(Aprobado))
    ensures card.endTime.Some? <==> item.finOper.Some?
    ensures card.startTime == NotAvailable <==> item.iniOper.None?
  {
    var result :=
      if item.finOper.Some? && Truthy(item.statusOs) then
        Some(ResultLine(item.statusOs.value, if item.statusOs.value == Aprobado then Green else Red))
      else None;
    var inProgress := item.iniOper.Some? && item.finOper.None?;
    Card(
      startTime := FormatTime(item.iniOper),
      endTime := if item.finOper.Some? then Some(FormatTime(item.finOper)) else None,
      result := result,
      showStart := item.iniOper.None?,
      showApprove := inProgress,
      showReject := inProgress,
      showComments := true
    )
  }

  /** Start and Approve/Reject are never offered together, and a record with
      both timestamps offers only Comments. */
  lemma ActionsExclusive(item: Calidad)
    ensures !(Render(item).showStart && Render(item).showApprove)
    ensures item.iniOper.Some? && item.finOper.Some? ==>
              !Render(item).showStart && !Render(item).showApprove && !Render(item).showReject
              && Render(item).showComments
  {
  }
}
