/**
 * The justification text handed back by the report service
 * (services/geminiService.ts). The call to the text-generation service is
 * not modelled: its outcome arrives as a Reply, and only the service's own
 * fallback logic is.
 */
module Reports {

  /** What the text-generation call produced: its text (empty when the
   *  response had none) or a failure raised by the call. */
  datatype Reply = Text(text: string) | Failed

  const FallbackOnEmpty: string := "Violation confirmed by multi-point sensor correlation."

  const FallbackOnError: string :=
    "Violation confirmed: Dual-camera re-identification successful. Vehicle matched at stop line and intersection clearance point during active RED signal."

  /** The string the service resolves to: never empty, never an error. */
  function Justification(reply: Reply): (r: string)
    ensures r != ""
    ensures reply == Failed ==> r == FallbackOnError
    ensures reply.Text? && reply.text != "" ==> r == reply.text
    ensures reply.Text? && reply.text == "" ==> r == FallbackOnEmpty
  {
    match reply
    case Failed => FallbackOnError
    case Text(t) => if t != "" then t else FallbackOnEmpty
  }
}
