/** The Python exceptions the conversation store raises or lets through. */
module Errors {

  datatype Error =
    /** `ValueError(message)`, raised by the store itself or by the gateway. */
    | ValueError(message: string)
    /** `AttributeError`, raised while reading a response that lacks a field. */
    | AttributeError(message: string)
    /** Any other exception the model gateway raises (transport, quota, ...). */
    | GatewayError(message: string)

  /** Raised by `add_model_response` on an empty history. */
  const NoUserMessage: Error :=
    ValueError("Cannot add model response before any user message.")

  /** Raised when `candidates[0].content` is None and its `parts` is read. */
  const NoPartsAttribute: Error :=
    AttributeError("'NoneType' object has no attribute 'parts'")

  /** Raised when a response without a `text` attribute has its `text` read. */
  const NoTextAttribute: Error :=
    AttributeError("'GenerateContentResponse' object has no attribute 'text'")

  /** Raised by `send_message_to_conversation` for an unknown id. */
  function NotFound(id: string): Error
  {
    ValueError("Conversation with ID '" + id + "' not found.")
  }
}
