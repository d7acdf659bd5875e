/** The stable error codes of the AI service that this model raises. */
module AIErrors {
  datatype Code = NotConfigured | Unavailable | ProviderError | Timeout | RateLimited
                | QuotaExceeded | InvalidOutput | ContextTooLarge | UnauthorizedContext
}
