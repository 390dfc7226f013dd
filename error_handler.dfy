/** What the user is told when a query fails (src/communication/error_handler.rs). */
module ErrorHandler {

  import opened Wrappers
  import opened QueryTypes

  const MetalPricesUnavailable := "Could not fetch metal prices - please try again later"
  const QuotationFailed := "Error generating quotation - please check whether items are valid"
  const NotUnderstood := "Unable to understand query correctly"
  const ImageUnreadable := "Could not process image - please try again with clearer image"
  const AudioUnreadable := "Could not process audio - please try again with clearer audio"
  const ServiceUnavailable := "Could not service request - please try again later"

  /** `map_query_error_to_user_message`: five kinds of error have their own message, all others share one. */
  function UserMessage(e: QueryError): (m: string)
    ensures m == MetalPricesUnavailable <==> e.MetalPricingError?
    ensures m == QuotationFailed <==> e.QuotationServiceError?
    ensures m == NotUnderstood <==> e.LLMError?
    ensures m == ImageUnreadable <==> e.OcrError?
    ensures m == AudioUnreadable <==> e.TranscriptionError?
    ensures m == ServiceUnavailable <==>
              !(e.MetalPricingError? || e.QuotationServiceError? || e.LLMError? || e.OcrError? || e.TranscriptionError?)
  {
    match e
    case MetalPricingError(_) => MetalPricesUnavailable
    case QuotationServiceError => QuotationFailed
    case LLMError(_) => NotUnderstood
    case OcrError(_) => ImageUnreadable
    case TranscriptionError(_) => AudioUnreadable
    case _ => ServiceUnavailable
  }

  /** The user's message never reveals the error's detail: it depends on the kind of error only. */
  lemma MessageIgnoresDetail(d1: string, d2: string)
    ensures UserMessage(LLMError(d1)) == UserMessage(LLMError(d2))
    ensures UserMessage(OcrError(d1)) == UserMessage(OcrError(d2))
    ensures UserMessage(MetalPricingError(d1)) == UserMessage(MetalPricingError(d2))
    ensures UserMessage(LLMInitializationError(d1)) == UserMessage(OcrInitializationError)
  {
  }

  /** `create_error_response`: the message alone, with no file and no metadata. */
  function CreateErrorResponse(e: QueryError): (r: Response)
    ensures r.text == UserMessage(e) && r.file.None? && r.queryMetadata.None?
  {
    TextResponse(UserMessage(e))
  }
}
