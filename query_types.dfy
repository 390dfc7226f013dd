/**
 * The errors a query can end in (src/query/mod.rs) and the reply the chat front ends send
 * (src/communication/telegram.rs).
 */
module QueryTypes {

  import opened Wrappers
  import opened Json

  /**
   * `QueryError`. `TranscriptionError` is not declared in src/query/mod.rs but is used by the
   * Telegram front end and the error handler, so the model includes it.
   */
  datatype QueryError =
    | LLMError(detail: string)
    | LLMInitializationError(detail: string)
    | OcrInitializationError
    | OcrError(detail: string)
    | QuotationServiceInitializationError(detail: string)
    | MetalPricingError(detail: string)
    | QuotationServiceError
    | PriceListServiceInitializationError(detail: string)
    | TranscriptionError(detail: string)

  /** The error's display text; a variant with a detail ends with it. */
  function ErrorText(e: QueryError): (t: string)
    ensures e.LLMError? || e.LLMInitializationError? || e.OcrError? || e.QuotationServiceInitializationError?
            || e.MetalPricingError? || e.PriceListServiceInitializationError? || e.TranscriptionError? ==>
              |e.detail| <= |t| && t[|t| - |e.detail|..] == e.detail
  {
    match e
    case LLMError(d) => "Failed to understand query: " + d
    case LLMInitializationError(d) => "LLM initialization error: " + d
    case OcrInitializationError => "OCR Service initialization error"
    case OcrError(d) => "OCR Service error: " + d
    case QuotationServiceInitializationError(d) => "Quotation Service Initialization Error: " + d
    case MetalPricingError(d) => "Error getting metal price: " + d
    case QuotationServiceError => "Quotation Formation Error"
    case PriceListServiceInitializationError(d) => "PriceList Service Initialization Error: " + d
    case TranscriptionError(d) => d
  }

  /** What is sent back to the user: a text, possibly a file to attach, and metadata for the session row. */
  datatype Response = Response(text: string, file: Option<string>, queryMetadata: Option<Json>)

  /** A plain text reply. */
  function TextResponse(text: string): (r: Response)
    ensures r.text == text && r.file.None? && r.queryMetadata.None?
  {
    Response(text, None, None)
  }
}
